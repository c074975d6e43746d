/** The "Create Your Coin" form: a schema over five text fields, and a
    submit that runs the coin hook and shows the created coin. */
module CoinForm {
  import opened Outcomes
  import opened Wallet
  import opened ZoraTypes
  import opened ZoraCoins
  import opened JsString
  import opened Address
  import opened FormSchema

  datatype CoinFormData = CoinFormData(
    name: string, symbol: string, description: string,
    initialLiquidity: string, category: string)

  /** `createCoinSchema`: every field must be non-empty and the symbol at
      most ten characters; one issue per failing field, in field order.
      The liquidity is only required to be non-empty: the "Minimum 0.1 ETH"
      under the field is display text. */
  function SchemaIssues(d: CoinFormData): (issues: seq<FieldError>)
    ensures issues == [] <==>
              d.name != "" && 1 <= |d.symbol| <= 10 && d.description != ""
              && d.initialLiquidity != "" && d.category != ""
    ensures FieldError("symbol", "Symbol must be 10 characters or less") in issues <==> |d.symbol| > 10
    ensures forall e :: e in issues ==>
              e.field in {"name", "symbol", "description", "initialLiquidity", "category"}
    ensures |issues| <= 5
  {
    (if d.name == "" then [FieldError("name", "Name is required")] else [])
    + (if d.symbol == "" then [FieldError("symbol", "Symbol is required")]
       else if |d.symbol| > 10 then [FieldError("symbol", "Symbol must be 10 characters or less")]
       else [])
    + (if d.description == "" then [FieldError("description", "Description is required")] else [])
    + (if d.initialLiquidity == "" then [FieldError("initialLiquidity", "Initial liquidity is required")] else [])
    + (if d.category == "" then [FieldError("category", "Category is required")] else [])
  }

  /** With the other fields valid, the liquidity passes exactly when it is
      non-empty: "0", or text that is not a number at all, is accepted. */
  lemma LiquidityMinimumNotEnforced(d: CoinFormData)
    requires d.name != "" && 1 <= |d.symbol| <= 10 && d.description != "" && d.category != ""
    ensures SchemaIssues(d) == [] <==> d.initialLiquidity != ""
  {
  }

  /** The hook's parameters: the form data, with the picked image or
      `undefined` when there is none. */
  function ParamsOf(d: CoinFormData, imageFile: Option<ImageFile>): (p: CreateCoinParams)
    ensures p.name == d.name && p.symbol == d.symbol && p.description == d.description
    ensures p.initialLiquidity == d.initialLiquidity && p.category == d.category
    ensures p.imageFile == imageFile
  {
    CreateCoinParams(d.name, d.symbol, d.description, d.initialLiquidity, d.category, imageFile)
  }

  /** The submit button is disabled while creating or disconnected; it does
      not look at the network. */
  function SubmitDisabled(isDeploying: bool, isConnected: bool): (r: bool)
    ensures !isConnected ==> r
    ensures !r <==> isConnected && !isDeploying
  {
    isDeploying || !isConnected
  }

  function SubmitCaption(isDeploying: bool, isConnected: bool): (r: string)
    ensures r == "Creating..." <==> isDeploying
    ensures !isDeploying ==> (r == "Deploy Coin" <==> isConnected)
  {
    if isDeploying then "Creating..."
    else if isConnected then "Deploy Coin" else "Connect Wallet to Deploy"
  }

  datatype View =
    | CoinCard(coin: CreatedCoin, metadataUri: Option<string>, explorerUrl: string)
    | CoinEntry(connectWarning: bool, submitDisabled: bool, caption: string, showsImage: bool)

  /** The success card while a coin is held (its metadata URI only when
      non-empty), otherwise the form. */
  function Render(createdCoin: Option<CreatedCoin>, isDeploying: bool, isConnected: bool,
                  imageFile: Option<ImageFile>): (v: View)
    ensures v.CoinCard? <==> createdCoin.Some?
    ensures v.CoinCard? ==>
              && v.coin == createdCoin.value
              && (v.metadataUri.Some? <==> createdCoin.value.metadataUri != "")
              && v.explorerUrl == ExplorerUrl(createdCoin.value.address)
    ensures v.CoinEntry? ==> (v.connectWarning <==> !isConnected) && (v.showsImage <==> imageFile.Some?)
  {
    if createdCoin.Some? then
      var c := createdCoin.value;
      CoinCard(c, if c.metadataUri != "" then Some(c.metadataUri) else None,
               ExplorerUrl(c.address))
    else
      CoinEntry(!isConnected, SubmitDisabled(isDeploying, isConnected),
                SubmitCaption(isDeploying, isConnected), imageFile.Some?)
  }

  /** The component's state: its three `useState` hooks. */
  class CreateCoinForm {
    var isDeploying: bool
    var imageFile: Option<ImageFile>
    var createdCoin: Option<CreatedCoin>

    constructor ()
      ensures !isDeploying && imageFile.None? && createdCoin.None?
    {
      isDeploying := false;
      imageFile := None;
      createdCoin := None;
    }

    /** `onSubmit`. Disconnected, it returns at once. Otherwise it runs the
        hook with the current image; on success it keeps the coin and clears
        the image, on failure it keeps what it had; either way the
        deploying flag is down at the end. */
    method OnSubmit(data: CoinFormData, account: Account, clients: Clients, io: CoinIo)
      returns (steps: seq<CoinStep>)
      modifies this
      ensures !account.isConnected ==>
                steps == [] && isDeploying == old(isDeploying)
                && createdCoin == old(createdCoin) && imageFile == old(imageFile)
      ensures account.isConnected ==>
                var run := CoinRun(account, clients, ParamsOf(data, old(imageFile)), io);
                && steps == run.steps
                && !isDeploying
                && createdCoin == (if run.result.Success? then Some(run.result.value) else old(createdCoin))
                && imageFile == (if run.result.Success? then None else old(imageFile))
    {
      if !account.isConnected {
        return [];
      }
      isDeploying := true;
      var params := CreateCoinParams(data.name, data.symbol, data.description,
                                     data.initialLiquidity, data.category, imageFile);
      var result;
      result, steps := CreateCreatorCoin(account, clients, params, io);
      if result.Success? {
        createdCoin := Some(result.value);
        imageFile := None;
      }
      isDeploying := false;
    }

    /** `handleSubmit(onSubmit)`: the schema runs first and `onSubmit` only
        sees data it accepts; rejected data changes nothing. */
    method HandleSubmit(data: CoinFormData, account: Account, clients: Clients, io: CoinIo)
      returns (issues: seq<FieldError>, steps: seq<CoinStep>)
      modifies this
      ensures issues == SchemaIssues(data)
      ensures issues != [] ==>
                steps == [] && isDeploying == old(isDeploying)
                && createdCoin == old(createdCoin) && imageFile == old(imageFile)
      ensures issues == [] && !account.isConnected ==>
                steps == [] && isDeploying == old(isDeploying)
                && createdCoin == old(createdCoin) && imageFile == old(imageFile)
      ensures issues == [] && account.isConnected ==>
                var run := CoinRun(account, clients, ParamsOf(data, old(imageFile)), io);
                && steps == run.steps
                && !isDeploying
                && createdCoin == (if run.result.Success? then Some(run.result.value) else old(createdCoin))
                && imageFile == (if run.result.Success? then None else old(imageFile))
    {
      issues := SchemaIssues(data);
      steps := [];
      if issues == [] {
        steps := OnSubmit(data, account, clients, io);
      }
    }

    /** `handleImageUpload`: takes the first chosen file, if any. */
    method HandleImageUpload(files: Option<seq<ImageFile>>)
      modifies this
      ensures imageFile == if files.Some? && |files.value| > 0 then Some(files.value[0]) else old(imageFile)
      ensures isDeploying == old(isDeploying) && createdCoin == old(createdCoin)
    {
      if files.Some? && |files.value| > 0 {
        imageFile := Some(files.value[0]);
      }
    }

    /** "Create Another Coin": back to the form. */
    method HandleCreateAnother()
      modifies this
      ensures createdCoin.None?
      ensures isDeploying == old(isDeploying) && imageFile == old(imageFile)
      ensures Render(createdCoin, isDeploying, true, imageFile).CoinEntry?
    {
      createdCoin := None;
    }
  }
}
