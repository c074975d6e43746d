/** The NFT creation hook: behind the wallet guard it always uploads the
    image, then uploads the metadata, then mints. */
module ZoraCreate {
  import opened Outcomes
  import opened Wallet
  import opened ZoraTypes
  import opened JsString

  datatype CreateNftParams = CreateNftParams(
    name: string, description: string, imageFile: ImageFile,
    animationUrl: Option<string>, attributes: Option<seq<Attribute>>)

  datatype NftMetadata = NftMetadata(
    name: string, description: string, image: string,
    animationUrl: Option<string>, attributes: seq<Attribute>)

  /** The record a successful creation returns. */
  datatype CreatedNft = CreatedNft(
    tokenId: string, contractAddress: string, transactionHash: string,
    name: string, metadataUri: string)

  /** What the outside world decides in one creation: what the two uploads
      resolve to, the random token number (the source draws it below 10000),
      the random address and hash digits, and which stage, if any, fails.
      The mocks always resolve; `rejectAt` stands for a real upload or SDK
      call failing, which the hook's `catch` rethrows. */
  datatype NftIo = NftIo(
    imageUri: string, metadataUri: string, tokenNumber: nat,
    contractHex: string, txHex: string, rejectAt: Option<Stage>)

  datatype NftStep =
    | UploadImage(file: ImageFile)
    | UploadMetadata(metadata: NftMetadata)
    | MintToken

  function StageOf(step: NftStep): Stage
  {
    match step
    case UploadImage(_) => ImageUpload
    case UploadMetadata(_) => MetadataUpload
    case MintToken => ChainCall
  }

  /** `createMetadata`'s record: the uploaded image, the animation URL as
      given, and the attributes, or none when absent (`attributes || []`). */
  function CreateMetadata(params: CreateNftParams, imageUri: string): (m: NftMetadata)
    ensures m.name == params.name && m.description == params.description
    ensures m.image == imageUri && m.animationUrl == params.animationUrl
    ensures params.attributes.None? ==> m.attributes == []
    ensures params.attributes.Some? ==> m.attributes == params.attributes.value
  {
    NftMetadata(params.name, params.description, imageUri, params.animationUrl,
                if params.attributes.Some? then params.attributes.value else [])
  }

  /** The stages in the order the hook awaits them: always all three. */
  const Stages: seq<Stage> := [ImageUpload, MetadataUpload, ChainCall]

  function Plan(params: CreateNftParams, io: NftIo): (plan: seq<NftStep>)
    ensures |plan| == 3
    ensures forall i :: 0 <= i < 3 ==> StageOf(plan[i]) == Stages[i]
    ensures plan[0] == UploadImage(params.imageFile)
    ensures plan[1] == UploadMetadata(CreateMetadata(params, io.imageUri))
    ensures plan[2] == MintToken
  {
    [UploadImage(params.imageFile), UploadMetadata(CreateMetadata(params, io.imageUri)),
     MintToken]
  }

  /** The mocked response of a successful creation. */
  function Created(params: CreateNftParams, io: NftIo): (c: CreatedNft)
    ensures c.name == params.name && c.metadataUri == io.metadataUri
    ensures c.tokenId == NatToString(io.tokenNumber)
    ensures StartsWith(c.contractAddress, "0x") && StartsWith(c.transactionHash, "0x")
  {
    CreatedNft(NatToString(io.tokenNumber), "0x" + io.contractHex, "0x" + io.txHex,
               params.name, io.metadataUri)
  }

  /** `createNFT` as a specification: the guard throws before any step; after
      it the steps run in plan order up to and including the first that
      rejects, whose error is rethrown; otherwise it resolves with the NFT. */
  function NftRun(account: Account, clients: Clients, params: CreateNftParams, io: NftIo)
    : (run: Run<CreatedNft, NftStep>)
    ensures !ReadyToCreate(account, clients) ==> run == Run(Failure(WalletNotConnected), [])
    ensures ReadyToCreate(account, clients) ==>
              run.steps != [] && run.steps <= Plan(params, io)
              && run.steps[0] == UploadImage(params.imageFile)
    ensures run.result.Success? <==> ReadyToCreate(account, clients) && io.rejectAt.None?
    ensures run.result.Success? ==> run.steps == Plan(params, io) && run.result.value == Created(params, io)
    ensures ReadyToCreate(account, clients) && run.result.Failure? ==>
              io.rejectAt.Some? && run.result.error == Rejected(io.rejectAt.value)
              && StageOf(run.steps[|run.steps| - 1]) == io.rejectAt.value
  {
    if !ReadyToCreate(account, clients) then Run(Failure(WalletNotConnected), [])
    else
      var plan := Plan(params, io);
      var k := StopAt(Stages, io.rejectAt);
      assert io.rejectAt.Some? ==> io.rejectAt.value in Stages;
      if k < |plan| then Run(Failure(Rejected(StageOf(plan[k]))), plan[..k + 1])
      else Run(Success(Created(params, io)), plan)
  }

  /** `createNFT`, step by step. */
  method CreateNft(account: Account, clients: Clients, params: CreateNftParams, io: NftIo)
    returns (result: Result<CreatedNft, HookError>, steps: seq<NftStep>)
    ensures Run(result, steps) == NftRun(account, clients, params, io)
  {
    if !account.isConnected || !Present(account.address)
       || !clients.hasWalletClient || !clients.hasPublicClient {
      return Failure(WalletNotConnected), [];
    }
    ghost var plan := Plan(params, io);
    steps := [UploadImage(params.imageFile)];
    if io.rejectAt == Some(ImageUpload) {
      assert steps == plan[..1];
      return Failure(Rejected(ImageUpload)), steps;
    }
    var imageUri := io.imageUri;
    steps := steps + [UploadMetadata(CreateMetadata(params, imageUri))];
    if io.rejectAt == Some(MetadataUpload) {
      assert steps == plan[..2];
      return Failure(Rejected(MetadataUpload)), steps;
    }
    steps := steps + [MintToken];
    if io.rejectAt == Some(ChainCall) {
      assert steps == plan[..3];
      return Failure(Rejected(ChainCall)), steps;
    }
    result := Success(Created(params, io));
  }

  /** The metadata that is uploaded is built from the uploaded image's URI:
      the image upload always comes first and feeds the metadata. */
  lemma MetadataUsesUploadedImage(account: Account, clients: Clients, params: CreateNftParams,
                                  io: NftIo, i: nat)
    requires i < |NftRun(account, clients, params, io).steps|
    requires NftRun(account, clients, params, io).steps[i].UploadMetadata?
    ensures i == 1
    ensures NftRun(account, clients, params, io).steps[i].metadata.image == io.imageUri
  {
    var plan := Plan(params, io);
    assert NftRun(account, clients, params, io).steps[i] == plan[i];
  }
}
