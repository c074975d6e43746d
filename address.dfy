/** How an account address is shown: shortened by the wallet button and the
    wallet modal (the first six characters, an ellipsis, the last four), and
    as a link to its page on the block explorer. */
module Address {
  import opened JsString
  import opened Outcomes

  /** `addr.slice(0, 6) + "..." + addr.slice(-4)`. Both components define
      this same arrow function, so one definition serves both. */
  function FormatAddress(a: string): (r: string)
    ensures |r| == Min(|a|, 6) + 3 + Min(|a|, 4)
    ensures r[..Min(|a|, 6)] == a[..Min(|a|, 6)]
    ensures r[Min(|a|, 6)..Min(|a|, 6) + 3] == "..."
    ensures r[|r| - Min(|a|, 4)..] == a[|a| - Min(|a|, 4)..]
  {
    SlicePrefix(a, 6);
    SliceSuffix(a, 4);
    Slice(a, 0, 6) + "..." + SliceFrom(a, -4)
  }

  /** A full address (at least ten characters) shortens to exactly thirteen:
      its first six, "...", its last four. */
  lemma FormatLongAddress(a: string)
    requires |a| >= 10
    ensures var r := FormatAddress(a);
      |r| == 13 && r[..6] == a[..6] && r[6..9] == "..." && r[9..] == a[|a| - 4..]
  {
  }

  /** When the address is no longer than the suffix, each slice is the whole
      string. */
  lemma FormatShortAddress(a: string)
    requires |a| <= 4
    ensures FormatAddress(a) == a + "..." + a
  {
    var r := FormatAddress(a);
    assert r[..|a|] == a && r[|a|..|a| + 3] == "..." && r[|a| + 3..] == a;
    assert r == r[..|a|] + r[|a|..|a| + 3] + r[|a| + 3..];
  }

  /** The shortened form never exceeds thirteen characters. */
  lemma FormatAddressBounded(a: string)
    ensures 3 <= |FormatAddress(a)| <= 13
  {
  }

  /** For an address of exactly ten characters nothing is dropped: the
      address is the shortened form with the ellipsis taken out. */
  lemma FormatAddressLossless(a: string)
    requires |a| == 10
    ensures var r := FormatAddress(a); r[..6] + r[9..] == a
  {
    var r := FormatAddress(a);
    assert a == a[..6] + a[6..];
  }

  /** The address page of the block explorer, linked from the wallet
      dialog and from the created-coin card. */
  function ExplorerUrl(a: string): (url: string)
    ensures StartsWith(url, "https://basescan.org/address/")
    ensures url[29..] == a
  {
    "https://basescan.org/address/" + a
  }

  /** Reading the address back out of an explorer link. */
  function AddressOfExplorerUrl(url: string): Option<string>
  {
    if StartsWith(url, "https://basescan.org/address/") then Some(url[29..]) else None
  }

  lemma ExplorerUrlRoundTrip(a: string)
    ensures AddressOfExplorerUrl(ExplorerUrl(a)) == Some(a)
  {
  }
}
