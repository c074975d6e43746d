/** The deploy button: a guarded, simulated deployment whose result replaces
    the button until the user asks to deploy another. */
module Deployment {
  import opened Outcomes
  import NetworkIndicator

  /** The two helpers the component imports from the wagmi configuration
      module, which does not define them: any pair of functions. */
  datatype WagmiHelpers = WagmiHelpers(isZoraSupportedNetwork: int -> bool,
                                       getNetworkName: int -> string)

  /** The helpers as they would be if they agreed with the network indicator
      on every chain id. Only the lemmas that say so by name use this
      assumption. */
  const IndicatorHelpers: WagmiHelpers :=
    WagmiHelpers(id => NetworkIndicator.GetNetworkInfo(id).isSupported,
                 id => NetworkIndicator.GetNetworkInfo(id).name)

  datatype DeploymentResult = DeploymentResult(url: string, txHash: string, network: string)

  /** The nondeterminism of one deployment: the random part of the URL and
      the random transaction hash digits. The simulated deployment is a
      delay that always resolves; `rejects` stands for a real deployment
      failing, which lands in the `catch`, keeps the old result and lowers
      the flag in `finally`. */
  datatype DeployIo = DeployIo(urlId: string, txHex: string, rejects: bool)

  /** The observable steps of `handleDeploy`, in order. */
  datatype DeployEvent = DeployingSet(value: bool) | ResultSet(result: DeploymentResult) | OnDeployCalled

  /** The record a successful deployment produces. */
  function ResultFor(networkName: string, io: DeployIo): (r: DeploymentResult)
    ensures r.network == networkName
    ensures |r.url| > 19 && r.url[..19] == "https://zora-coins-"
    ensures |r.txHash| >= 2 && r.txHash[..2] == "0x" && r.txHash[2..] == io.txHex
  {
    DeploymentResult("https://zora-coins-" + io.urlId + ".vercel.app", "0x" + io.txHex, networkName)
  }

  /** The guard of `handleDeploy`. */
  predicate MayDeploy(isConnected: bool, isCorrectNetwork: bool)
  {
    isConnected && isCorrectNetwork
  }

  /** The steps `handleDeploy` takes: nothing when the guard fails; otherwise
      it raises the deploying flag, on success records the result and only
      then calls `onDeploy`, and in every case lowers the flag last. */
  function DeployTrace(isConnected: bool, isCorrectNetwork: bool, networkName: string,
                       hasOnDeploy: bool, io: DeployIo): (t: seq<DeployEvent>)
    ensures t == [] <==> !MayDeploy(isConnected, isCorrectNetwork)
    ensures t != [] ==> t[0] == DeployingSet(true) && t[|t| - 1] == DeployingSet(false)
    ensures forall i :: 0 < i < |t| - 1 ==> !t[i].DeployingSet?
    ensures OnDeployCalled in t <==> MayDeploy(isConnected, isCorrectNetwork) && !io.rejects && hasOnDeploy
    ensures forall i :: 0 <= i < |t| && t[i] == OnDeployCalled ==>
              exists j :: 0 <= j < i && t[j].ResultSet? && t[j].result.network == networkName
    ensures forall e :: e in t && e.ResultSet? ==> e.result == ResultFor(networkName, io) && !io.rejects
  {
    if !MayDeploy(isConnected, isCorrectNetwork) then []
    else if io.rejects then [DeployingSet(true), DeployingSet(false)]
    else
      var t := [DeployingSet(true), ResultSet(ResultFor(networkName, io))]
               + (if hasOnDeploy then [OnDeployCalled] else []) + [DeployingSet(false)];
      assert forall i :: 0 <= i < |t| && t[i] == OnDeployCalled ==> i == 2 && t[1].ResultSet?;
      t
  }

  /** `disabled || isDeploying || !isConnected || !isCorrectNetwork`. */
  function ButtonDisabled(disabled: bool, isDeploying: bool, isConnected: bool, isCorrectNetwork: bool): (r: bool)
    ensures !isConnected ==> r
    ensures !r <==> MayDeploy(isConnected, isCorrectNetwork) && !isDeploying && !disabled
  {
    disabled || isDeploying || !isConnected || !isCorrectNetwork
  }

  /** The label of the idle button: the first failing condition wins. */
  function IdleLabel(isConnected: bool, isCorrectNetwork: bool): (r: string)
    ensures r in {"Connect Wallet to Deploy", "Switch to Base Network", "Deploy on Base Network"}
    ensures r == "Connect Wallet to Deploy" <==> !isConnected
    ensures r == "Switch to Base Network" <==> isConnected && !isCorrectNetwork
    ensures r == "Deploy on Base Network" <==> MayDeploy(isConnected, isCorrectNetwork)
  {
    if !isConnected then "Connect Wallet to Deploy"
    else if !isCorrectNetwork then "Switch to Base Network"
    else "Deploy on Base Network"
  }

  /** The label while deploying names the network, otherwise the idle label. */
  function ButtonLabel(isDeploying: bool, isConnected: bool, isCorrectNetwork: bool,
                       networkName: string): (r: string)
    ensures isDeploying ==> r == "Deploying to " + networkName + "..."
    ensures !isDeploying ==> r == IdleLabel(isConnected, isCorrectNetwork)
  {
    if isDeploying then "Deploying to " + networkName + "..."
    else IdleLabel(isConnected, isCorrectNetwork)
  }

  datatype Status = Status(title: string, detail: string)

  /** The network status panel: shown only while connected. */
  function StatusPanel(isConnected: bool, isCorrectNetwork: bool, networkName: string): (r: Option<Status>)
    ensures r.Some? <==> isConnected
    ensures r.Some? ==> (r.value.title == "Ready to Deploy" <==> isCorrectNetwork)
    ensures r.Some? ==> (r.value.title == "Wrong Network" <==> !isCorrectNetwork)
  {
    if !isConnected then None
    else if isCorrectNetwork then
      Some(Status("Ready to Deploy", "Connected to " + networkName + " - Deployment ready"))
    else
      Some(Status("Wrong Network", "Switch to Base or Base Sepolia to deploy"))
  }

  /** What the component shows: the result card while a result is held,
      otherwise the status panel and the button. */
  datatype View =
    | ResultCard(result: DeploymentResult)
    | DeployForm(status: Option<Status>, buttonDisabled: bool, caption: string)

  function Render(deploymentResult: Option<DeploymentResult>, isDeploying: bool, disabled: bool,
                  isConnected: bool, isCorrectNetwork: bool, networkName: string): (v: View)
    ensures v.ResultCard? <==> deploymentResult.Some?
    ensures v.ResultCard? ==> v.result == deploymentResult.value
    ensures v.DeployForm? && !v.buttonDisabled ==>
              v.caption == "Deploy on Base Network" && MayDeploy(isConnected, isCorrectNetwork)
    ensures v.DeployForm? && !isConnected ==> v.buttonDisabled && v.status.None?
  {
    if deploymentResult.Some? then ResultCard(deploymentResult.value)
    else DeployForm(StatusPanel(isConnected, isCorrectNetwork, networkName),
                    ButtonDisabled(disabled, isDeploying, isConnected, isCorrectNetwork),
                    ButtonLabel(isDeploying, isConnected, isCorrectNetwork, networkName))
  }

  /** The link text of the result card: the URL without its scheme. */
  function UrlText(r: DeploymentResult): (s: string)
    requires |r.url| >= 8 && r.url[..8] == "https://"
    ensures "https://" + s == r.url
  {
    r.url[8..]
  }

  /** The component does not switch chains: the "Switch to Base Network"
      label only ever appears on a disabled button. */
  lemma SwitchLabelIsInert(disabled: bool, isDeploying: bool, isConnected: bool,
                           isCorrectNetwork: bool, networkName: string)
    requires ButtonLabel(isDeploying, isConnected, isCorrectNetwork, networkName) == "Switch to Base Network"
    ensures ButtonDisabled(disabled, isDeploying, isConnected, isCorrectNetwork)
  {
    if isDeploying {
      assert ButtonLabel(isDeploying, isConnected, isCorrectNetwork, networkName)[..13] == "Deploying to ";
    }
  }

  /** The state of a mounted button: the two `useState` hooks, and the
      `disabled` and `onDeploy` props. */
  class DeploymentButton {
    var isDeploying: bool
    var deploymentResult: Option<DeploymentResult>
    const disabled: bool
    const hasOnDeploy: bool

    constructor (disabled: bool, hasOnDeploy: bool)
      ensures !isDeploying && deploymentResult.None?
      ensures this.disabled == disabled && this.hasOnDeploy == hasOnDeploy
    {
      isDeploying := false;
      deploymentResult := None;
      this.disabled := disabled;
      this.hasOnDeploy := hasOnDeploy;
    }

    function View(isConnected: bool, chainId: int, helpers: WagmiHelpers): View
      reads this
    {
      Render(deploymentResult, isDeploying, disabled, isConnected,
             helpers.isZoraSupportedNetwork(chainId), helpers.getNetworkName(chainId))
    }

    /** `handleDeploy`. Without a connection on a supported network it
        changes nothing; otherwise the flag is down again at the end, and
        the result is recorded exactly when the deployment did not reject. */
    method HandleDeploy(isConnected: bool, chainId: int, helpers: WagmiHelpers, io: DeployIo)
      returns (events: seq<DeployEvent>)
      modifies this
      ensures events == DeployTrace(isConnected, helpers.isZoraSupportedNetwork(chainId),
                                    helpers.getNetworkName(chainId), hasOnDeploy, io)
      ensures !MayDeploy(isConnected, helpers.isZoraSupportedNetwork(chainId)) ==>
                isDeploying == old(isDeploying) && deploymentResult == old(deploymentResult)
      ensures MayDeploy(isConnected, helpers.isZoraSupportedNetwork(chainId)) ==>
                !isDeploying
                && deploymentResult == if io.rejects then old(deploymentResult)
                                       else Some(ResultFor(helpers.getNetworkName(chainId), io))
    {
      var isCorrectNetwork := helpers.isZoraSupportedNetwork(chainId);
      var networkName := helpers.getNetworkName(chainId);
      if !isConnected || !isCorrectNetwork {
        return [];
      }
      isDeploying := true;
      events := [DeployingSet(true)];
      if !io.rejects {
        var result := ResultFor(networkName, io);
        deploymentResult := Some(result);
        events := events + [ResultSet(result)];
        if hasOnDeploy {
          events := events + [OnDeployCalled];
        }
      }
      isDeploying := false;
      events := events + [DeployingSet(false)];
    }

    /** "Deploy Another": drop the result, which brings back the form. */
    method DeployAnother()
      modifies this`deploymentResult
      ensures deploymentResult.None?
      ensures forall c, id, h :: View(c, id, h).DeployForm?
    {
      deploymentResult := None;
    }
  }

  /** Assuming the helpers agree with the network indicator: exactly the two
      Base chains pass the deploy guard. */
  lemma IndicatorHelpersGate(isConnected: bool, chainId: int)
    ensures MayDeploy(isConnected, IndicatorHelpers.isZoraSupportedNetwork(chainId))
            <==> isConnected && NetworkIndicator.IsSupportedChain(chainId)
  {
  }

  /** Assuming the same helpers: connected to Ethereum mainnet (chain 1) the
      button is disabled, asks to switch, and the panel says "Wrong Network". */
  lemma IndicatorHelpersOnMainnet(isDeploying: bool)
    ensures var supported := IndicatorHelpers.isZoraSupportedNetwork(1);
      var name := IndicatorHelpers.getNetworkName(1);
      && !supported && name == "Unsupported"
      && Render(None, false, false, true, supported, name)
         == DeployForm(Some(Status("Wrong Network", "Switch to Base or Base Sepolia to deploy")),
                       true, "Switch to Base Network")
  {
  }
}
