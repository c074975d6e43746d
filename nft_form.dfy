/** The "Create NFT on Zora" form: a schema over name, description and an
    optional animation URL; a required image; a submit that runs the NFT
    hook and shows a link to the minted token. */
module NftForm {
  import opened Outcomes
  import opened Wallet
  import opened ZoraTypes
  import opened ZoraCreate
  import opened JsString
  import opened FormSchema

  datatype NftFormData = NftFormData(
    name: string, description: string,
    animationUrl: Option<string>, attributes: Option<seq<Attribute>>)

  /** The `animationUrl` field: absent, empty, or accepted by zod's URL
      check, which is not modelled and is given as `isUrl`. */
  predicate AnimationUrlOk(animationUrl: Option<string>, isUrl: string -> bool)
  {
    animationUrl.None? || animationUrl.value == "" || isUrl(animationUrl.value)
  }

  /** `createSchema`: name and description non-empty, and an acceptable
      animation URL; the attributes are typed strings and always pass. */
  function SchemaIssues(d: NftFormData, isUrl: string -> bool): (issues: seq<FieldError>)
    ensures issues == [] <==> d.name != "" && d.description != "" && AnimationUrlOk(d.animationUrl, isUrl)
    ensures forall e :: e in issues ==> e.field in {"name", "description", "animationUrl"}
    ensures (exists e :: e in issues && e.field == "animationUrl") <==> !AnimationUrlOk(d.animationUrl, isUrl)
  {
    var issues := (if d.name == "" then [FieldError("name", "Name is required")] else [])
      + (if d.description == "" then [FieldError("description", "Description is required")] else [])
      + (if AnimationUrlOk(d.animationUrl, isUrl) then [] else [FieldError("animationUrl", "Invalid input")]);
    assert !AnimationUrlOk(d.animationUrl, isUrl) ==> issues[|issues| - 1].field == "animationUrl";
    issues
  }

  /** The hook's parameters: the form data and the picked image. */
  function ParamsOf(d: NftFormData, image: ImageFile): (p: CreateNftParams)
    ensures p.name == d.name && p.description == d.description && p.imageFile == image
    ensures p.animationUrl == d.animationUrl && p.attributes == d.attributes
  {
    CreateNftParams(d.name, d.description, image, d.animationUrl, d.attributes)
  }

  /** `isCreating || !isConnected || !imageFile`. */
  function SubmitDisabled(isCreating: bool, isConnected: bool, imageFile: Option<ImageFile>): (r: bool)
    ensures !isConnected ==> r
    ensures imageFile.None? ==> r
    ensures !r <==> isConnected && imageFile.Some? && !isCreating
  {
    isCreating || !isConnected || imageFile.None?
  }

  /** "Image is required" is shown exactly while no image is picked. */
  function ImageNotice(imageFile: Option<ImageFile>): (r: Option<string>)
    ensures r.Some? <==> imageFile.None?
    ensures r.Some? ==> r.value == "Image is required"
  {
    if imageFile.None? then Some("Image is required") else None
  }

  const CollectPrefix: string := "https://zora.co/collect/base:"

  /** The "View on Zora" link of a created token. */
  function CollectUrl(contractAddress: string, tokenId: string): (url: string)
    ensures StartsWith(url, CollectPrefix)
    ensures url[|CollectPrefix|..] == contractAddress + "/" + tokenId
  {
    CollectPrefix + contractAddress + "/" + tokenId
  }

  /** Reading contract and token back out of a collect link: the contract is
      what comes before the first slash after the prefix. */
  function ParseCollectUrl(url: string): Option<(string, string)>
  {
    if !StartsWith(url, CollectPrefix) then None
    else
      var rest := url[|CollectPrefix|..];
      var k := IndexOf(rest, '/');
      if k < 0 then None else Some((rest[..k], rest[k + 1..]))
  }

  /** The link is unambiguous for any contract address without a slash,
      which every hexadecimal address is. */
  lemma CollectUrlRoundTrip(contractAddress: string, tokenId: string)
    requires '/' !in contractAddress
    ensures ParseCollectUrl(CollectUrl(contractAddress, tokenId)) == Some((contractAddress, tokenId))
  {
    var url := CollectUrl(contractAddress, tokenId);
    var rest := url[|CollectPrefix|..];
    assert rest == contractAddress + ['/'] + tokenId;
    IndexOfAfter(contractAddress, '/', tokenId);
    var k := |contractAddress|;
    assert rest[..k] == contractAddress && rest[k + 1..] == tokenId;
  }

  datatype View =
    | NftCard(item: CreatedNft, collectUrl: string)
    | NftEntry(connectWarning: bool, imageNotice: Option<string>, submitDisabled: bool, caption: string)

  function SubmitCaption(isCreating: bool, isConnected: bool): (r: string)
    ensures r == "Creating..." <==> isCreating
    ensures !isCreating ==> (r == "Create NFT" <==> isConnected)
    ensures r in {"Creating...", "Create NFT", "Connect Wallet to Create"}
  {
    if isCreating then "Creating..."
    else if isConnected then "Create NFT" else "Connect Wallet to Create"
  }

  /** The success card while an item is held, otherwise the form. */
  function Render(createdItem: Option<CreatedNft>, isCreating: bool, isConnected: bool,
                  imageFile: Option<ImageFile>): (v: View)
    ensures v.NftCard? <==> createdItem.Some?
    ensures v.NftCard? ==>
              v.item == createdItem.value
              && v.collectUrl == CollectUrl(createdItem.value.contractAddress, createdItem.value.tokenId)
    ensures v.NftEntry? ==>
              && (v.connectWarning <==> !isConnected)
              && v.imageNotice == ImageNotice(imageFile)
              && (!v.submitDisabled ==> isConnected && imageFile.Some?)
  {
    if createdItem.Some? then
      NftCard(createdItem.value, CollectUrl(createdItem.value.contractAddress, createdItem.value.tokenId))
    else
      NftEntry(!isConnected, ImageNotice(imageFile), SubmitDisabled(isCreating, isConnected, imageFile),
               SubmitCaption(isCreating, isConnected))
  }

  /** The component's state: its three `useState` hooks. */
  class ZoraCreateForm {
    var isCreating: bool
    var imageFile: Option<ImageFile>
    var createdItem: Option<CreatedNft>

    constructor ()
      ensures !isCreating && imageFile.None? && createdItem.None?
    {
      isCreating := false;
      imageFile := None;
      createdItem := None;
    }

    /** `onSubmit`. Without a connection or without an image it returns at
        once. Otherwise it runs the hook with the image; on success it keeps
        the item and clears the image, on failure it keeps what it had;
        either way the creating flag is down at the end. */
    method OnSubmit(data: NftFormData, account: Account, clients: Clients, io: NftIo)
      returns (steps: seq<NftStep>)
      modifies this
      ensures !account.isConnected || old(imageFile).None? ==>
                steps == [] && isCreating == old(isCreating)
                && createdItem == old(createdItem) && imageFile == old(imageFile)
      ensures account.isConnected && old(imageFile).Some? ==>
                var run := NftRun(account, clients, ParamsOf(data, old(imageFile).value), io);
                && steps == run.steps
                && !isCreating
                && createdItem == (if run.result.Success? then Some(run.result.value) else old(createdItem))
                && imageFile == (if run.result.Success? then None else old(imageFile))
    {
      if !account.isConnected || imageFile.None? {
        return [];
      }
      isCreating := true;
      var params := CreateNftParams(data.name, data.description, imageFile.value,
                                    data.animationUrl, data.attributes);
      var result;
      result, steps := CreateNft(account, clients, params, io);
      if result.Success? {
        createdItem := Some(result.value);
        imageFile := None;
      }
      isCreating := false;
    }

    /** `handleSubmit(onSubmit)`: `onSubmit` only sees data the schema
        accepts; rejected data changes nothing. */
    method HandleSubmit(data: NftFormData, isUrl: string -> bool, account: Account,
                        clients: Clients, io: NftIo)
      returns (issues: seq<FieldError>, steps: seq<NftStep>)
      modifies this
      ensures issues == SchemaIssues(data, isUrl)
      ensures issues != [] ==>
                steps == [] && isCreating == old(isCreating)
                && createdItem == old(createdItem) && imageFile == old(imageFile)
      ensures issues == [] && (!account.isConnected || old(imageFile).None?) ==>
                steps == [] && isCreating == old(isCreating)
                && createdItem == old(createdItem) && imageFile == old(imageFile)
      ensures issues == [] && account.isConnected && old(imageFile).Some? ==>
                var run := NftRun(account, clients, ParamsOf(data, old(imageFile).value), io);
                && steps == run.steps
                && !isCreating
                && createdItem == (if run.result.Success? then Some(run.result.value) else old(createdItem))
                && imageFile == (if run.result.Success? then None else old(imageFile))
    {
      issues := SchemaIssues(data, isUrl);
      steps := [];
      if issues == [] {
        steps := OnSubmit(data, account, clients, io);
      }
    }

    /** `handleImageUpload`: takes the first chosen file, if any. */
    method HandleImageUpload(files: Option<seq<ImageFile>>)
      modifies this
      ensures imageFile == if files.Some? && |files.value| > 0 then Some(files.value[0]) else old(imageFile)
      ensures isCreating == old(isCreating) && createdItem == old(createdItem)
    {
      if files.Some? && |files.value| > 0 {
        imageFile := Some(files.value[0]);
      }
    }

    /** "Create Another NFT": back to the form. */
    method HandleCreateAnother()
      modifies this
      ensures createdItem.None?
      ensures isCreating == old(isCreating) && imageFile == old(imageFile)
      ensures Render(createdItem, isCreating, true, imageFile).NftEntry?
    {
      createdItem := None;
    }
  }
}
