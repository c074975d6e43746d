/** How the components gate their protocol actions, side by side. Each
    component computes its own gate: the deploy button asks for a connection
    and a supported network, the two creation forms only for a connection
    (and the NFT form for an image). */
module FeatureGating {
  import opened Outcomes
  import NetworkIndicator
  import Deployment
  import CoinForm
  import NftForm
  import ZoraTypes

  /** Without a connection no action is enabled and no network is shown,
      whatever the chain and the rest of the state. */
  lemma DisconnectedDisablesEverything(chainId: int, disabled: bool, busy: bool,
                                       isCorrectNetwork: bool, imageFile: Option<ZoraTypes.ImageFile>)
    ensures Deployment.ButtonDisabled(disabled, busy, false, isCorrectNetwork)
    ensures CoinForm.SubmitDisabled(busy, false)
    ensures NftForm.SubmitDisabled(busy, false, imageFile)
    ensures NetworkIndicator.Render(false, chainId).None?
  {
  }

  /** The gates differ on an unsupported chain: connected to Ethereum
      mainnet (chain 1), with the deploy helpers agreeing with the network
      indicator, the deploy button is disabled while both creation forms
      can be submitted. */
  lemma GatingIsNotUniform(image: ZoraTypes.ImageFile)
    ensures !NetworkIndicator.GetNetworkInfo(1).isSupported
    ensures Deployment.ButtonDisabled(false, false, true,
              Deployment.IndicatorHelpers.isZoraSupportedNetwork(1))
    ensures !CoinForm.SubmitDisabled(false, true)
    ensures !NftForm.SubmitDisabled(false, true, Some(image))
  {
  }
}
