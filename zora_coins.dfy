/** The creator-coin hook: behind the wallet guard it uploads the image (when
    one was picked), uploads the metadata, then creates the coin. */
module ZoraCoins {
  import opened Outcomes
  import opened Wallet
  import opened ZoraTypes
  import opened JsString

  datatype CreateCoinParams = CreateCoinParams(
    name: string, symbol: string, description: string,
    initialLiquidity: string, category: string, imageFile: Option<ImageFile>)

  datatype CoinMetadata = CoinMetadata(
    name: string, description: string, image: string, attributes: seq<Attribute>)

  /** The record a successful creation returns. */
  datatype CreatedCoin = CreatedCoin(
    address: string, version: string, transactionHash: string,
    name: string, symbol: string, metadataUri: string)

  /** What the outside world decides in one creation: what the two uploads
      resolve to, the random address and hash digits, and which stage, if
      any, fails. The mocked uploads and the simulated chain call always
      resolve; `rejectAt` stands for a real upload or SDK call failing,
      which the hook's `catch` rethrows. */
  datatype CoinIo = CoinIo(
    imageUri: string, metadataUri: string, addressHex: string, txHex: string,
    rejectAt: Option<Stage>)

  /** The steps a creation performs, with what each one is given; the
      simulated chain call is a bare delay and is given nothing. */
  datatype CoinStep =
    | UploadImage(file: ImageFile)
    | UploadMetadata(metadata: CoinMetadata)
    | CreateCoin

  function StageOf(step: CoinStep): Stage
  {
    match step
    case UploadImage(_) => ImageUpload
    case UploadMetadata(_) => MetadataUpload
    case CreateCoin => ChainCall
  }

  /** `createMetadata`'s record: the image URI, and exactly two attributes,
      Category then Symbol. */
  function CreateMetadata(params: CreateCoinParams, imageUri: string): (m: CoinMetadata)
    ensures m.name == params.name && m.description == params.description && m.image == imageUri
    ensures |m.attributes| == 2
    ensures m.attributes[0] == Attribute("Category", params.category)
    ensures m.attributes[1] == Attribute("Symbol", params.symbol)
  {
    CoinMetadata(params.name, params.description, imageUri,
                 [Attribute("Category", params.category), Attribute("Symbol", params.symbol)])
  }

  /** The image URI the metadata carries: the upload's, or "" with no file. */
  function ImageUriOf(params: CreateCoinParams, io: CoinIo): string
  {
    if params.imageFile.Some? then io.imageUri else ""
  }

  /** The stages in the order the hook awaits them. */
  function Stages(params: CreateCoinParams): seq<Stage>
  {
    (if params.imageFile.Some? then [ImageUpload] else []) + [MetadataUpload, ChainCall]
  }

  /** Every step of a creation that nothing rejects, in order. */
  function Plan(params: CreateCoinParams, io: CoinIo): (plan: seq<CoinStep>)
    ensures |plan| == |Stages(params)|
    ensures forall i :: 0 <= i < |plan| ==> StageOf(plan[i]) == Stages(params)[i]
    ensures params.imageFile.Some? ==> plan[0] == UploadImage(params.imageFile.value)
    ensures plan[|plan| - 2] == UploadMetadata(CreateMetadata(params, ImageUriOf(params, io)))
    ensures plan[|plan| - 1] == CreateCoin
  {
    (if params.imageFile.Some? then [UploadImage(params.imageFile.value)] else [])
    + [UploadMetadata(CreateMetadata(params, ImageUriOf(params, io))), CreateCoin]
  }

  /** The mocked response of a successful creation. */
  function Created(params: CreateCoinParams, io: CoinIo): (c: CreatedCoin)
    ensures c.name == params.name && c.symbol == params.symbol
    ensures c.version == "v4" && c.metadataUri == io.metadataUri
    ensures StartsWith(c.address, "0x") && StartsWith(c.transactionHash, "0x")
  {
    CreatedCoin("0x" + io.addressHex, "v4", "0x" + io.txHex, params.name, params.symbol, io.metadataUri)
  }

  /** `createCreatorCoin` as a specification: the guard throws before any
      step; after it the steps run in plan order up to and including the
      first that rejects, whose error is rethrown; with none rejecting the
      call resolves with the created coin. */
  function CoinRun(account: Account, clients: Clients, params: CreateCoinParams, io: CoinIo)
    : (run: Run<CreatedCoin, CoinStep>)
    ensures !ReadyToCreate(account, clients) ==> run == Run(Failure(WalletNotConnected), [])
    ensures ReadyToCreate(account, clients) ==> run.steps != [] && run.steps <= Plan(params, io)
    ensures run.result.Success? <==>
              ReadyToCreate(account, clients) && !(io.rejectAt.Some? && io.rejectAt.value in Stages(params))
    ensures run.result.Success? ==> run.steps == Plan(params, io) && run.result.value == Created(params, io)
    ensures ReadyToCreate(account, clients) && run.result.Failure? ==>
              io.rejectAt.Some? && run.result.error == Rejected(io.rejectAt.value)
              && StageOf(run.steps[|run.steps| - 1]) == io.rejectAt.value
  {
    if !ReadyToCreate(account, clients) then Run(Failure(WalletNotConnected), [])
    else
      var plan := Plan(params, io);
      var k := StopAt(Stages(params), io.rejectAt);
      if k < |plan| then Run(Failure(Rejected(StageOf(plan[k]))), plan[..k + 1])
      else Run(Success(Created(params, io)), plan)
  }

  /** `createCreatorCoin`, step by step, with the reassigned `imageUri`. */
  method CreateCreatorCoin(account: Account, clients: Clients, params: CreateCoinParams, io: CoinIo)
    returns (result: Result<CreatedCoin, HookError>, steps: seq<CoinStep>)
    ensures Run(result, steps) == CoinRun(account, clients, params, io)
  {
    if !account.isConnected || !Present(account.address)
       || !clients.hasWalletClient || !clients.hasPublicClient {
      return Failure(WalletNotConnected), [];
    }
    ghost var plan := Plan(params, io);
    steps := [];
    var imageUri := "";
    if params.imageFile.Some? {
      steps := steps + [UploadImage(params.imageFile.value)];
      if io.rejectAt == Some(ImageUpload) {
        assert steps == plan[..1];
        return Failure(Rejected(ImageUpload)), steps;
      }
      imageUri := io.imageUri;
    }
    steps := steps + [UploadMetadata(CreateMetadata(params, imageUri))];
    if io.rejectAt == Some(MetadataUpload) {
      assert steps == plan[..|plan| - 1];
      return Failure(Rejected(MetadataUpload)), steps;
    }
    steps := steps + [CreateCoin];
    if io.rejectAt == Some(ChainCall) {
      assert steps == plan[..|plan|];
      return Failure(Rejected(ChainCall)), steps;
    }
    result := Success(Created(params, io));
  }

  /** With no file there is no image upload, and the metadata's image is "". */
  lemma NoImageNoUpload(account: Account, clients: Clients, params: CreateCoinParams, io: CoinIo)
    requires params.imageFile.None?
    ensures forall s :: s in CoinRun(account, clients, params, io).steps ==> !s.UploadImage?
    ensures forall s :: s in CoinRun(account, clients, params, io).steps && s.UploadMetadata? ==>
              s.metadata.image == ""
  {
    var run := CoinRun(account, clients, params, io);
    var plan := Plan(params, io);
    assert plan == [UploadMetadata(CreateMetadata(params, "")), CreateCoin];
    forall s | s in run.steps ensures s in plan {
      var i :| 0 <= i < |run.steps| && run.steps[i] == s;
      assert plan[i] == s;
    }
  }

  /** The steps come in a fixed order: image upload, metadata upload, coin
      creation; each stage at most once. */
  lemma StepOrder(account: Account, clients: Clients, params: CreateCoinParams, io: CoinIo,
                  i: nat, j: nat)
    requires i < j < |CoinRun(account, clients, params, io).steps|
    ensures var steps := CoinRun(account, clients, params, io).steps;
      (steps[i].UploadImage? && i == 0)
      || (steps[i].UploadMetadata? && steps[j].CreateCoin?)
  {
    var steps := CoinRun(account, clients, params, io).steps;
    var plan := Plan(params, io);
    assert steps[i] == plan[i] && steps[j] == plan[j];
    if params.imageFile.Some? {
      assert plan == [UploadImage(params.imageFile.value),
                      UploadMetadata(CreateMetadata(params, ImageUriOf(params, io))),
                      CreateCoin];
    } else {
      assert plan == [UploadMetadata(CreateMetadata(params, ImageUriOf(params, io))),
                      CreateCoin];
    }
  }
}
