/** The read and mint side of the Zora hook: fixed collection and token
    listings, and a guarded, simulated mint that echoes its parameters. */
module ZoraProtocol {
  import opened Outcomes
  import opened ZoraTypes
  import opened JsString

  datatype ZoraCollection = ZoraCollection(
    address: string, name: string, symbol: string, description: string,
    image: string, totalSupply: int, floorPrice: Option<string>, creator: string)

  datatype ZoraNft = ZoraNft(
    tokenId: string, contractAddress: string, name: string, description: string,
    image: string, creator: string, owner: string, price: Option<string>,
    metadataUri: Option<string>)

  const MockMetadataUri: string := "ipfs://bafkreihz5knnvvsvmaxlpw3kout23te6yboquyvvs72wzfulgrkwj7r7dm"

  const CollectionAddress1: string := "0x1234567890123456789012345678901234567890"
  const CollectionAddress2: string := "0x2345678901234567890123456789012345678901"
  const CollectionAddress3: string := "0x3456789012345678901234567890123456789012"

  lemma CollectionAddressesDistinct()
    ensures CollectionAddress1 != CollectionAddress2
    ensures CollectionAddress1 != CollectionAddress3
    ensures CollectionAddress2 != CollectionAddress3
  {
    assert CollectionAddress1[2] == '1' && CollectionAddress2[2] == '2' && CollectionAddress3[2] == '3';
  }

  const DigitalDreams: ZoraCollection := ZoraCollection(
    CollectionAddress1, "Digital Dreams Collection", "DDC",
    "A curated collection of digital art pieces exploring the intersection of technology and creativity",
    "https://images.pexels.com/photos/1266808/pexels-photo-1266808.jpeg?auto=compress&cs=tinysrgb&w=400",
    100, Some("0.1"), "0xCreator1")

  const CryptoPortraits: ZoraCollection := ZoraCollection(
    CollectionAddress2, "Crypto Portraits", "CP",
    "Unique portrait collection celebrating diversity in the crypto space",
    "https://images.pexels.com/photos/2379004/pexels-photo-2379004.jpeg?auto=compress&cs=tinysrgb&w=400",
    50, Some("0.05"), "0xCreator2")

  const AbstractVisions: ZoraCollection := ZoraCollection(
    CollectionAddress3, "Abstract Visions", "AV",
    "Abstract art collection pushing the boundaries of digital expression",
    "https://images.pexels.com/photos/1239291/pexels-photo-1239291.jpeg?auto=compress&cs=tinysrgb&w=400",
    75, Some("0.08"), "0xCreator3")

  /** `getCollections`: always the same three collections. The `catch`
      branch that returns `[]` cannot be reached, since nothing in the `try`
      throws. */
  function GetCollections(): (r: seq<ZoraCollection>)
    ensures |r| == 3
    ensures forall i, j :: 0 <= i < j < |r| ==> r[i].address != r[j].address
    ensures forall i :: 0 <= i < |r| ==> r[i].totalSupply > 0
  {
    CollectionAddressesDistinct();
    [DigitalDreams, CryptoPortraits, AbstractVisions]
  }

  const DigitalDream1: ZoraNft := ZoraNft("1", CollectionAddress1, "Digital Dream #1",
    "A beautiful digital artwork exploring the concept of digital consciousness",
    "https://images.pexels.com/photos/1266808/pexels-photo-1266808.jpeg?auto=compress&cs=tinysrgb&w=400",
    "0xCreator1", "0xOwner1", Some("0.1"), Some(MockMetadataUri))

  const DigitalDream2: ZoraNft := ZoraNft("2", CollectionAddress1, "Digital Dream #2",
    "Another stunning piece from the Digital Dreams collection",
    "https://images.pexels.com/photos/2379004/pexels-photo-2379004.jpeg?auto=compress&cs=tinysrgb&w=400",
    "0xCreator2", "0xOwner2", Some("0.15"), Some(MockMetadataUri))

  const CryptoPortrait1: ZoraNft := ZoraNft("3", CollectionAddress2, "Crypto Portrait #1",
    "A unique portrait celebrating crypto culture",
    "https://images.pexels.com/photos/1239291/pexels-photo-1239291.jpeg?auto=compress&cs=tinysrgb&w=400",
    "0xCreator3", "0xOwner3", Some("0.08"), Some(MockMetadataUri))

  /** `getNFTs`: the same three tokens whatever collection is asked for; the
      parameter is never read. Every token belongs to a listed collection. */
  function GetNfts(collectionAddress: Option<string>): (r: seq<ZoraNft>)
    ensures |r| == 3
    ensures r[0].tokenId == "1" && r[1].tokenId == "2" && r[2].tokenId == "3"
    ensures forall i :: 0 <= i < |r| ==> r[i].metadataUri == Some(MockMetadataUri)
    ensures forall i :: 0 <= i < |r| ==>
              exists c :: c in GetCollections() && c.address == r[i].contractAddress
  {
    var cs := GetCollections();
    assert cs[0] in cs && cs[1] in cs;
    [DigitalDream1, DigitalDream2, CryptoPortrait1]
  }

  /** The listing does not depend on the collection asked for. */
  lemma GetNftsIgnoresCollection(a: Option<string>, b: Option<string>)
    ensures GetNfts(a) == GetNfts(b)
  {
  }

  datatype MintParams = MintParams(contractAddress: string, to: string, quantity: int, comment: Option<string>)

  datatype MintResult = MintResult(
    transactionHash: string, tokenId: string, contractAddress: string, to: string, quantity: int)

  /** The random hash digits and token number of one mint, and whether the
      transaction fails. The simulated transaction is a delay that always
      resolves; `rejects` stands for a real SDK call failing, which the
      hook's `catch` rethrows. */
  datatype MintIo = MintIo(txHex: string, tokenNumber: nat, rejects: bool)

  /** `mintNFT`: throws "Wallet not connected" without a connection or a
      wallet client; a rejection after the guard is rethrown; otherwise the
      result echoes the contract, the recipient and the quantity. */
  function MintNft(isConnected: bool, hasWalletClient: bool, params: MintParams, io: MintIo)
    : (r: Result<MintResult, HookError>)
    ensures r == Failure(WalletNotConnected) <==> !isConnected || !hasWalletClient
    ensures r.Failure? && isConnected && hasWalletClient ==> io.rejects && r.error == Rejected(ChainCall)
    ensures r.Success? ==>
              !io.rejects
              && r.value.contractAddress == params.contractAddress
              && r.value.to == params.to && r.value.quantity == params.quantity
              && r.value.tokenId == NatToString(io.tokenNumber)
  {
    if !isConnected || !hasWalletClient then Failure(WalletNotConnected)
    else if io.rejects then Failure(Rejected(ChainCall))
    else Success(MintResult("0x" + io.txHex, NatToString(io.tokenNumber),
                            params.contractAddress, params.to, params.quantity))
  }

  /** The success notice: "NFT" takes an "s" exactly when more than one
      token was minted. */
  function MintMessage(quantity: int): (m: string)
    ensures StartsWith(m, "Successfully minted ")
    ensures |m| >= 5 && m[|m| - 1] == '!'
    ensures m[|m| - 2] == 's' <==> quantity > 1
    ensures quantity > 1 ==> m[|m| - 5..] == "NFTs!"
    ensures quantity <= 1 ==> m[|m| - 4..] == "NFT!"
  {
    "Successfully minted " + IntToString(quantity) + " NFT" + (if quantity > 1 then "s" else "") + "!"
  }
}
