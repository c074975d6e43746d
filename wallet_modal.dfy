/** The wallet dialog: a connect prompt while disconnected; the shortened
    address, copy and explorer actions and a disconnect button while
    connected. */
module WalletModal {
  import opened Outcomes
  import opened Wallet
  import opened Address
  import opened JsString

  /** What a handler asks of the outside world: the connector's own connect
      dialog, a disconnect, the `onClose` prop, the clipboard, a new window. */
  datatype Effect =
    | OpenConnectModal
    | Disconnect
    | Close
    | WriteClipboard(text: string)
    | OpenWindow(url: string)

  /** `handleConnect`: opens the connector's dialog only when the connector
      offers one. */
  function HandleConnect(hasConnectModal: bool): (effects: seq<Effect>)
    ensures OpenConnectModal in effects <==> hasConnectModal
    ensures |effects| <= 1
  {
    if hasConnectModal then [OpenConnectModal] else []
  }

  /** `handleDisconnect`: disconnect, then close the dialog, unconditionally. */
  function HandleDisconnect(): (effects: seq<Effect>)
    ensures |effects| == 2 && effects[0] == Disconnect && effects[1] == Close
  {
    [Disconnect, Close]
  }

  /** The explorer button: opens the address page, only when there is an
      address. */
  function ExplorerClick(address: Option<string>): (effects: seq<Effect>)
    ensures effects != [] <==> Present(address)
    ensures effects != [] ==> effects == [OpenWindow(ExplorerUrl(address.value))]
  {
    if Present(address) then [OpenWindow(ExplorerUrl(address.value))] else []
  }

  /** The state the handlers act on: the connector's account and the open
      flag that `onClose` clears (held by the wallet button). */
  datatype Session = Session(account: Account, isOpen: bool)

  /** What the effects do to that state: the connector drops the account on
      disconnect and `onClose` clears the open flag; the other effects leave
      the session alone. */
  function Apply(s: Session, effects: seq<Effect>): Session
    decreases |effects|
  {
    if effects == [] then s
    else
      var s' := match effects[0]
        case Disconnect => s.(account := Account(false, None))
        case Close => s.(isOpen := false)
        case _ => s;
      Apply(s', effects[1..])
  }

  /** After "Disconnect" the account is gone and the dialog is closed, from
      any session; and doing it twice is the same as doing it once. */
  lemma DisconnectCloses(s: Session)
    ensures Apply(s, HandleDisconnect()) == Session(Account(false, None), false)
    ensures Apply(Apply(s, HandleDisconnect()), HandleDisconnect()) == Apply(s, HandleDisconnect())
  {
    var e := HandleDisconnect();
    var gone := Session(Account(false, None), false);
    assert e[1..] == [Close] && e[1..][1..] == [];
    assert Apply(s.(account := Account(false, None)), [Close]) == Apply(gone, []);
    assert Apply(gone, e[1..]) == gone;
  }

  datatype Body =
    | ConnectedBody(addressText: Option<string>, copyCaption: string)
    | ConnectPrompt

  datatype ModalView = Hidden | Shown(header: string, body: Body)

  /** The rendered dialog. */
  function Render(isOpen: bool, account: Account, copied: bool): (v: ModalView)
    ensures v.Hidden? <==> !isOpen
    ensures v.Shown? ==> (v.header == "Wallet" <==> account.isConnected)
    ensures v.Shown? ==> v.header in {"Wallet", "Connect Wallet"}
    ensures v.Shown? ==> (v.body.ConnectedBody? <==> account.isConnected)
    ensures v.Shown? && v.body.ConnectedBody? ==>
              && v.body.addressText == (if Present(account.address) then Some(FormatAddress(account.address.value)) else None)
              && (v.body.copyCaption == "Copied" <==> copied)
  {
    if !isOpen then Hidden
    else if account.isConnected then
      Shown("Wallet", ConnectedBody(
        if Present(account.address) then Some(FormatAddress(account.address.value)) else None,
        if copied then "Copied" else "Copy"))
    else Shown("Connect Wallet", ConnectPrompt)
  }

  /** The dialog's own state: the `copied` flag. */
  class WalletConnectionModal {
    var copied: bool

    constructor ()
      ensures !copied
    {
      copied := false;
    }

    /** `handleCopyAddress`: with an address, write it to the clipboard and,
        once the write resolves, raise `copied`; without one, do nothing.
        `clipboardRejects` says whether the awaited write fails: then
        `copied` stays as it was and the failure escapes the handler
        (`rejected`). */
    method HandleCopyAddress(address: Option<string>, clipboardRejects: bool)
      returns (effects: seq<Effect>, rejected: bool)
      modifies this
      ensures effects == if Present(address) then [WriteClipboard(address.value)] else []
      ensures rejected <==> Present(address) && clipboardRejects
      ensures copied == ((Present(address) && !clipboardRejects) || old(copied))
    {
      effects := [];
      rejected := false;
      if Present(address) {
        effects := [WriteClipboard(address.value)];
        if clipboardRejects {
          return effects, true;
        }
        copied := true;
      }
    }

    /** The timer the copy handler starts: it lowers `copied` again. */
    method CopiedTimerElapsed()
      modifies this
      ensures !copied
    {
      copied := false;
    }
  }
}
