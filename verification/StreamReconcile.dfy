/**
 Reconciling what was streamed with what a turn finally reports
 (internal/httpapi/stream_reconcile.go). Both stream writers decide here what the
 client is still owed.

 `decode` stands for JSON decoding: the value a text denotes, if it denotes one.
 Decoded values are compared only for equality, so numbers stand for them.
 */
module StreamReconcile {
  import opened Common

  type Decoder = string -> Option<nat>

  datatype Suffix = Owed(text: string) | Mismatch

  predicate SameJsonValue(decode: Decoder, a: string, b: string) {
    decode(a).Some? && decode(a) == decode(b)
  }

  /** What a client gathered amounts to the terminal arguments: the same bytes, or the same JSON value. */
  predicate Carries(decode: Decoder, terminal: string, gathered: string) {
    gathered == terminal || SameJsonValue(decode, terminal, gathered)
  }

  /** Plain text may be extended, never contradicted; the suffix completes it exactly. */
  function TerminalStreamSuffix(terminal: string, streamed: string): (r: Suffix)
    ensures r.Owed? <==> streamed <= terminal
    ensures r.Owed? ==> streamed + r.text == terminal
  {
    if terminal == streamed then Owed("")
    else if !(streamed <= terminal) then Mismatch
    else Owed(terminal[|streamed|..])
  }

  /** Arguments may also have been re-encoded; fragments of the same value owe nothing more. */
  function ToolArgumentsSuffix(decode: Decoder, terminal: string, delivered: string): (r: Suffix)
    ensures r.Owed? <==> delivered <= terminal || SameJsonValue(decode, terminal, delivered)
    ensures r.Owed? ==> Carries(decode, terminal, delivered + r.text)
    ensures r.Owed? && r.text != "" ==> delivered + r.text == terminal
  {
    if delivered == "" || terminal == delivered then Owed(terminal[|delivered|..])
    else if SameJsonValue(decode, terminal, delivered) then assert delivered + "" == delivered; Owed("")
    else TerminalStreamSuffix(terminal, delivered)
  }
}
