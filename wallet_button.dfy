/** The navigation bar's wallet button: its caption and the dialog it opens. */
module WalletButtonUi {
  import opened Outcomes
  import opened Wallet
  import opened Address

  /** The caption: the shortened address when connected with an address,
      "Connect Wallet" otherwise. The two cannot be confused, since a
      shortened address is at most thirteen characters long. */
  function Caption(isConnected: bool, address: Option<string>): (r: string)
    ensures r == "Connect Wallet" <==> !(isConnected && Present(address))
    ensures isConnected && Present(address) ==> r == FormatAddress(address.value)
  {
    if isConnected && Present(address) then
      FormatAddressBounded(address.value);
      FormatAddress(address.value)
    else "Connect Wallet"
  }

  /** The button's state: whether it has opened the wallet dialog. */
  class WalletButton {
    var isModalOpen: bool

    constructor ()
      ensures !isModalOpen
    {
      isModalOpen := false;
    }

    /** A click on the button opens the dialog. */
    method Click()
      modifies this
      ensures isModalOpen
    {
      isModalOpen := true;
    }

    /** The `onClose` handed to the dialog closes it. */
    method OnClose()
      modifies this
      ensures !isModalOpen
    {
      isModalOpen := false;
    }
  }
}
