/** The network badge of the navigation bar: which chain the wallet is on,
    whether the application supports it, and nothing at all while no wallet
    is connected. */
module NetworkIndicator {
  import opened Outcomes

  /** Chain ids of `base` and `baseSepolia` in wagmi's chain table. */
  const BaseId: int := 8453
  const BaseSepoliaId: int := 84532

  /** The only chains the application treats as supported. */
  predicate IsSupportedChain(chainId: int)
  {
    chainId == BaseId || chainId == BaseSepoliaId
  }

  datatype NetworkInfo = NetworkInfo(name: string, color: string, isSupported: bool)

  /** `getNetworkInfo`: a switch on the chain id. Every chain other than the
      two Base chains, Ethereum mainnet included, is "Unsupported". */
  function GetNetworkInfo(chainId: int): (r: NetworkInfo)
    ensures r.isSupported <==> IsSupportedChain(chainId)
    ensures r.name == "Base" <==> chainId == BaseId
    ensures r.name == "Base Sepolia" <==> chainId == BaseSepoliaId
    ensures r.name == "Unsupported" <==> !IsSupportedChain(chainId)
    ensures r.name in {"Base", "Base Sepolia", "Unsupported"}
    ensures r.color == "bg-red-600" <==> !r.isSupported
  {
    if chainId == BaseId then NetworkInfo("Base", "bg-blue-600", true)
    else if chainId == BaseSepoliaId then NetworkInfo("Base Sepolia", "bg-orange-600", true)
    else NetworkInfo("Unsupported", "bg-red-600", false)
  }

  lemma BaseInfo()
    ensures GetNetworkInfo(BaseId) == NetworkInfo("Base", "bg-blue-600", true)
  {
  }

  lemma BaseSepoliaInfo()
    ensures GetNetworkInfo(BaseSepoliaId) == NetworkInfo("Base Sepolia", "bg-orange-600", true)
  {
  }

  lemma OtherChainInfo(chainId: int)
    requires chainId != BaseId && chainId != BaseSepoliaId
    ensures GetNetworkInfo(chainId) == NetworkInfo("Unsupported", "bg-red-600", false)
  {
  }

  /** The displayed name determines the supported chain: it can be read back
      from the badge. */
  function ChainOfName(name: string): Option<int>
  {
    if name == "Base" then Some(BaseId)
    else if name == "Base Sepolia" then Some(BaseSepoliaId)
    else None
  }

  lemma NameIdentifiesChain(chainId: int)
    ensures ChainOfName(GetNetworkInfo(chainId).name)
            == if IsSupportedChain(chainId) then Some(chainId) else None
  {
  }

  datatype Icon = Wifi | WifiOff

  /** What the badge shows: the network info and its icon. The balance text
      beside it is floating-point formatting and is not modelled. */
  datatype Badge = Badge(network: NetworkInfo, icon: Icon)

  /** The component: `null` while disconnected, otherwise the badge for the
      current chain, with the warning icon exactly on unsupported chains. */
  function Render(isConnected: bool, chainId: int): (r: Option<Badge>)
    ensures r.None? <==> !isConnected
    ensures r.Some? ==> r.value.network == GetNetworkInfo(chainId)
    ensures r.Some? ==> (r.value.icon == WifiOff <==> !IsSupportedChain(chainId))
  {
    if !isConnected then None
    else
      var network := GetNetworkInfo(chainId);
      Some(Badge(network, if network.isSupported then Wifi else WifiOff))
  }

  /** Disconnected, nothing is shown whatever chain the connector reports. */
  lemma HiddenWhenDisconnected(chainId1: int, chainId2: int)
    ensures Render(false, chainId1) == Render(false, chainId2) == None
  {
  }
}
