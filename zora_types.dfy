/** Types shared by the two creation hooks: the picked image file, metadata
    attributes, the stages of a creation and the errors a creation throws. */
module ZoraTypes {
  import opened Outcomes

  /** A browser `File` chosen in a file input; only its identity matters. */
  datatype ImageFile = ImageFile(name: string)

  /** One `{ trait_type, value }` entry of token metadata. */
  datatype Attribute = Attribute(traitType: string, value: string)

  /** The awaited stages of a creation: the image upload, the metadata upload
      and the (simulated) on-chain call. */
  datatype Stage = ImageUpload | MetadataUpload | ChainCall

  /** What a creation hook throws: the guard's error, or the rejection of one
      awaited stage, rethrown unchanged by the hook's catch block. */
  datatype HookError = WalletNotConnected | Rejected(stage: Stage)

  /** The message the hook itself gives its error; a rejection carries
      whatever message the rejecting stage produced, which is not modelled. */
  function ErrorMessage(e: HookError): (m: Option<string>)
    ensures m.Some? <==> e.WalletNotConnected?
    ensures m.Some? ==> m.value == "Wallet not connected"
  {
    if e.WalletNotConnected? then Some("Wallet not connected") else None
  }

  /** One call of a creation hook: how it settled and the steps it took. */
  datatype Run<T, S> = Run(result: Result<T, HookError>, steps: seq<S>)

  /** Where a run over `stages` stops when the stage `reject` (if any)
      rejects: the position of that stage, or the end when it never comes. */
  function StopAt(stages: seq<Stage>, reject: Option<Stage>): (k: nat)
    ensures k <= |stages|
    ensures k < |stages| <==> reject.Some? && reject.value in stages
    ensures k < |stages| ==> stages[k] == reject.value && reject.value !in stages[..k]
  {
    if reject.None? || stages == [] then |stages|
    else if stages[0] == reject.value then 0
    else
      var k := StopAt(stages[1..], reject);
      assert k < |stages| - 1 ==> stages[..k + 1] == [stages[0]] + stages[1..][..k];
      k + 1
  }
}
