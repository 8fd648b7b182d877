/**
 One batch of pending tool calls (internal/toolproxy/toolproxy.go, Batch and Call):
 handlers add calls and wait on them, the client completes the batch, its TTL or
 a shutdown closes it. Closing and completing decide under the batch mutex and
 settle the calls one by one afterwards, so each settlement is its own step. What a
 call is settled with goes through a channel, and only one handler takes it out.
 */
module ToolBatch {
  import opened Common

  type CallId = nat
  type SdkId = string
  type Text = string
  type Handler = nat

  datatype Error = Expired | Cancelled

  /** What goes into a call's channel. */
  datatype Settlement = Delivered(output: Text) | Failed(error: Error)

  /** `settled` is what went into the channel, whether or not a handler has taken it out. */
  datatype Call = Call(kind: ToolKind, publicName: string, settled: Option<Settlement>)

  /** How a handler came back: with what its call's channel held, or because the batch context was done. */
  datatype Return = Received(call: CallId, settlement: Settlement) | ContextEnded(call: CallId)

  /** A client's output for one call; an absent kind and an empty name match anything. */
  datatype Output = Output(kind: Option<ToolKind>, name: string, text: Text)

  /**
   The batch, with the work its closer (`failing`) or completer (`delivering`)
   still has to do, the calls it held when it was decided (`decided`), the handlers
   waiting on a call each, the calls whose channel one of them has emptied (`takenBy`),
   and the handlers that are back.
   */
  datatype Batch = Batch(
    calls: map<CallId, Call>,
    bySdk: map<SdkId, CallId>,
    expired: bool,
    completed: bool,
    contextDone: bool,
    failing: set<CallId>,
    failure: Error,
    delivering: set<CallId>,
    decided: set<CallId>,
    outputs: map<CallId, Output>,
    waiting: map<Handler, CallId>,
    takenBy: map<CallId, Handler>,
    returned: map<Handler, Return>)

  function Empty(): Batch {
    Batch(map[], map[], false, false, false, {}, Expired, {}, {}, map[], map[], map[], map[])
  }

  predicate Open(b: Batch) {
    !b.expired && !b.completed
  }

  // ---- Steps ---------------------------------------------------------------

  /** The call for `sdk`, minted as `minted` on first sight; an empty id never correlates. */
  function CallFor(b: Batch, sdk: SdkId, minted: CallId): CallId {
    if sdk != "" && sdk in b.bySdk then b.bySdk[sdk] else minted
  }

  function AfterEnsure(b: Batch, sdk: SdkId, minted: CallId, kind: ToolKind, name: string): Batch {
    if sdk != "" && sdk in b.bySdk then b
    else b.(calls := b.calls[minted := Call(kind, name, None)],
            bySdk := if sdk != "" then b.bySdk[sdk := minted] else b.bySdk)
  }

  function AfterClose(b: Batch, error: Error): Batch {
    if !Open(b) then b
    else b.(expired := true, failing := b.calls.Keys, failure := error, decided := b.calls.Keys)
  }

  predicate Accepts(call: Call, output: Output) {
    && (output.kind.Some? ==> output.kind.value == call.kind)
    && (call.kind == Custom && output.name != "" && call.publicName != "" ==> output.name == call.publicName)
  }

  datatype Completion = Completed | BatchExpired | AlreadyCompleted | WrongCount | UnknownCall | WrongOutput

  predicate MatchesCalls(b: Batch, outputs: map<CallId, Output>) {
    outputs.Keys == b.calls.Keys && forall id | id in outputs :: Accepts(b.calls[id], outputs[id])
  }

  /** Completion, when the expiry instant has not passed; `AfterClose` covers the other case. */
  function AfterComplete(b: Batch, outputs: map<CallId, Output>): Batch {
    if Open(b) && MatchesCalls(b, outputs)
    then b.(completed := true, delivering := outputs.Keys, decided := outputs.Keys, outputs := outputs)
    else b
  }

  /** A call is fed once; what it was fed stays recorded here when a handler takes it out of the channel. */
  function Settle(calls: map<CallId, Call>, id: CallId, s: Settlement): (fed: map<CallId, Call>)
    requires id in calls
    ensures fed.Keys == calls.Keys
  {
    if calls[id].settled.Some? then calls else calls[id := calls[id].(settled := Some(s))]
  }

  function AfterFail(b: Batch, id: CallId): Batch {
    if id in b.failing && id in b.calls
    then b.(calls := Settle(b.calls, id, Failed(b.failure)), failing := b.failing - {id}) else b
  }

  function AfterDeliver(b: Batch, id: CallId): Batch {
    if id in b.delivering && id in b.calls && id in b.outputs
    then b.(calls := Settle(b.calls, id, Delivered(b.outputs[id].text)), delivering := b.delivering - {id}) else b
  }

  /** The closer cancels the batch context after failing every call it found. */
  function AfterContext(b: Batch): Batch {
    if b.expired && b.failing == {} then b.(contextDone := true) else b
  }

  /** A handler finds or mints its call and begins to wait on it. */
  function AfterInvoke(b: Batch, h: Handler, sdk: SdkId, minted: CallId, kind: ToolKind, name: string): Batch {
    AfterEnsure(b, sdk, minted, kind, name).(waiting := b.waiting[h := CallFor(b, sdk, minted)])
  }

  /** The call's channel holds a value. */
  predicate Holds(b: Batch, id: CallId) {
    id in b.calls && b.calls[id].settled.Some? && id !in b.takenBy
  }

  function AfterReceive(b: Batch, h: Handler): Batch {
    if h in b.waiting && Holds(b, b.waiting[h])
    then
      b.(waiting := b.waiting - {h}, takenBy := b.takenBy[b.waiting[h] := h],
         returned := b.returned[h := Received(b.waiting[h], b.calls[b.waiting[h]].settled.value)])
    else b
  }

  function AfterLeave(b: Batch, h: Handler): Batch {
    if h in b.waiting && b.contextDone
    then b.(waiting := b.waiting - {h}, returned := b.returned[h := ContextEnded(b.waiting[h])]) else b
  }

  datatype Step =
    | Ensure(sdk: SdkId, minted: CallId, kind: ToolKind, name: string)
    | Invoke(h: Handler, sdk: SdkId, minted: CallId, kind: ToolKind, name: string)
    | Close(error: Error)
    | Complete(outputs: map<CallId, Output>)
    | Fail(id: CallId)
    | Deliver(id: CallId)
    | CancelContext
    | Receive(h: Handler)
    | Leave(h: Handler)

  function Next(b: Batch, step: Step): Batch {
    match step
    case Ensure(sdk, minted, kind, name) => if minted in b.calls then b else AfterEnsure(b, sdk, minted, kind, name)
    case Invoke(h, sdk, minted, kind, name) =>
      if minted in b.calls || h in b.waiting || h in b.returned then b else AfterInvoke(b, h, sdk, minted, kind, name)
    case Close(error) => AfterClose(b, error)
    case Complete(outputs) => AfterComplete(b, outputs)
    case Fail(id) => AfterFail(b, id)
    case Deliver(id) => AfterDeliver(b, id)
    case CancelContext => AfterContext(b)
    case Receive(h) => AfterReceive(b, h)
    case Leave(h) => AfterLeave(b, h)
  }

  function Run(b: Batch, steps: seq<Step>): Batch
    decreases |steps|
  {
    if steps == [] then b else Run(Next(b, steps[0]), steps[1..])
  }

  // ---- What every step keeps -----------------------------------------------

  ghost predicate Decided(b: Batch) {
    && b.decided <= b.calls.Keys
    && b.failing <= b.decided && b.delivering <= b.decided
    && (Open(b) ==> b.decided == {})
    && (!b.expired ==> b.failing == {} && !b.contextDone)
    && (!b.completed ==> b.delivering == {})
    && (b.completed ==> b.outputs.Keys == b.decided)
    && (b.contextDone ==> b.failing == {})
  }

  /** A call is settled exactly if its batch is decided, held it, and has got round to it. */
  ghost predicate Settled(b: Batch)
    requires Decided(b)
  {
    forall id :: id in b.calls ==>
      b.calls[id].settled ==
        if id !in b.decided || id in b.failing || id in b.delivering then None
        else if b.completed then Some(Delivered(b.outputs[id].text))
        else Some(Failed(b.failure))
  }

  ghost predicate Published(b: Batch) {
    forall sdk :: sdk in b.bySdk ==> b.bySdk[sdk] in b.calls
  }

  ghost predicate Sound(b: Batch) {
    !(b.expired && b.completed) && Decided(b) && Settled(b) && Published(b)
  }

  /** Handlers that are back took their call's value, each value once, or saw the context end. */
  ghost predicate HandlersServed(b: Batch) {
    && b.waiting.Keys !! b.returned.Keys
    && (forall h :: h in b.waiting ==> b.waiting[h] in b.calls)
    && (forall id :: id in b.takenBy ==>
          && id in b.calls && b.calls[id].settled.Some? && b.takenBy[id] in b.returned
          && b.returned[b.takenBy[id]] == Received(id, b.calls[id].settled.value))
    && (forall h :: h in b.returned && b.returned[h].Received? ==>
          b.returned[h].call in b.takenBy && b.takenBy[b.returned[h].call] == h)
    && (forall h :: h in b.returned && b.returned[h].ContextEnded? ==> b.contextDone && b.returned[h].call in b.calls)
  }

  ghost predicate Inv(b: Batch) {
    Sound(b) && HandlersServed(b)
  }

  predicate ByHandler(step: Step) {
    step.Invoke? || step.Receive? || step.Leave?
  }

  predicate Settling(step: Step) {
    step.Fail? || step.Deliver?
  }

  /** The handlers are where they were, and no settlement went away. */
  ghost predicate HandlersLeft(b: Batch, c: Batch) {
    && c.waiting == b.waiting && c.takenBy == b.takenBy && c.returned == b.returned
    && (b.contextDone ==> c.contextDone)
    && forall id :: id in b.calls ==> id in c.calls && (b.calls[id].settled.Some? ==> c.calls[id] == b.calls[id])
  }

  lemma ServedAsBefore(b: Batch, c: Batch)
    requires HandlersServed(b) && HandlersLeft(b, c)
    ensures HandlersServed(c)
  {
  }

  lemma FailingLeavesHandlers(b: Batch, id: CallId)
    ensures HandlersLeft(b, AfterFail(b, id))
  {
  }

  lemma DeliveringLeavesHandlers(b: Batch, id: CallId)
    ensures HandlersLeft(b, AfterDeliver(b, id))
  {
  }

  lemma EnsuringLeavesHandlers(b: Batch, sdk: SdkId, minted: CallId, kind: ToolKind, name: string)
    requires minted !in b.calls
    ensures HandlersLeft(b, AfterEnsure(b, sdk, minted, kind, name))
  {
  }

  lemma DecidingLeavesHandlers(b: Batch, step: Step)
    requires step.Close? || step.Complete? || step.CancelContext?
    ensures HandlersLeft(b, Next(b, step))
  {
  }

  /** What the closer and the completer do leaves the handlers where they are. */
  lemma OthersLeaveHandlers(b: Batch, step: Step)
    requires !ByHandler(step)
    ensures HandlersLeft(b, Next(b, step))
  {
    if step.Ensure? {
      if step.minted !in b.calls { EnsuringLeavesHandlers(b, step.sdk, step.minted, step.kind, step.name); }
      hide AfterEnsure;
    } else if Settling(step) {
      FailingLeavesHandlers(b, step.id);
      DeliveringLeavesHandlers(b, step.id);
      hide AfterFail, AfterDeliver, HandlersLeft;
    } else {
      DecidingLeavesHandlers(b, step);
      hide Next;
    }
  }

  lemma ServedWaiting(b: Batch, h: Handler, id: CallId)
    requires HandlersServed(b) && id in b.calls && h !in b.returned
    ensures HandlersServed(b.(waiting := b.waiting[h := id]))
  {
  }

  lemma CallForIsThere(b: Batch, sdk: SdkId, minted: CallId, kind: ToolKind, name: string)
    requires Published(b)
    ensures CallFor(b, sdk, minted) in AfterEnsure(b, sdk, minted, kind, name).calls
  {
  }

  lemma ServedInvoke(b: Batch, h: Handler, sdk: SdkId, minted: CallId, kind: ToolKind, name: string)
    requires HandlersServed(b) && Published(b) && minted !in b.calls && h !in b.returned
    ensures HandlersServed(AfterInvoke(b, h, sdk, minted, kind, name))
  {
    var c := AfterEnsure(b, sdk, minted, kind, name);
    EnsuringLeavesHandlers(b, sdk, minted, kind, name);
    CallForIsThere(b, sdk, minted, kind, name);
    ServedAsBefore(b, c);
    assert c.waiting == b.waiting && c.returned == b.returned;
    hide HandlersServed, HandlersLeft, AfterEnsure, CallFor;
    ServedWaiting(c, h, CallFor(b, sdk, minted));
  }

  lemma ServedReceive(b: Batch, h: Handler)
    requires HandlersServed(b)
    ensures HandlersServed(AfterReceive(b, h))
  {
  }

  lemma ServedLeave(b: Batch, h: Handler)
    requires HandlersServed(b)
    ensures HandlersServed(AfterLeave(b, h))
  {
  }

  lemma ServedStep(b: Batch, step: Step)
    requires HandlersServed(b) && Published(b)
    ensures HandlersServed(Next(b, step))
  {
    hide HandlersServed, Published, AfterInvoke, AfterReceive, AfterLeave;
    match step {
      case Invoke(h, sdk, minted, kind, name) =>
        if minted !in b.calls && h !in b.waiting && h !in b.returned { ServedInvoke(b, h, sdk, minted, kind, name); }
      case Receive(h) => ServedReceive(b, h);
      case Leave(h) => ServedLeave(b, h);
      case _ =>
        hide Next;
        OthersLeaveHandlers(b, step);
        ServedAsBefore(b, Next(b, step));
    }
  }

  lemma SoundEnsure(b: Batch, sdk: SdkId, minted: CallId, kind: ToolKind, name: string)
    requires Sound(b) && minted !in b.calls
    ensures Sound(AfterEnsure(b, sdk, minted, kind, name))
  {
  }

  /** Whoever only waits or comes back changes nothing of the batch. */
  lemma SoundAsBefore(b: Batch, c: Batch)
    requires Sound(b) && c == b.(waiting := c.waiting, takenBy := c.takenBy, returned := c.returned)
    ensures Sound(c)
  {
  }

  lemma SoundByHandler(b: Batch, step: Step)
    requires Sound(b) && ByHandler(step)
    ensures Sound(Next(b, step))
  {
    hide Sound;
    var c := Next(b, step);
    if step.Invoke? {
      if c != b {
        var ensured := AfterEnsure(b, step.sdk, step.minted, step.kind, step.name);
        SoundEnsure(b, step.sdk, step.minted, step.kind, step.name);
        hide AfterEnsure;
        SoundAsBefore(ensured, c);
      }
    } else {
      SoundAsBefore(b, c);
    }
  }

  lemma SoundFail(b: Batch, id: CallId)
    requires Sound(b)
    ensures Sound(AfterFail(b, id))
  {
  }

  lemma SoundDeliver(b: Batch, id: CallId)
    requires Sound(b)
    ensures Sound(AfterDeliver(b, id))
  {
  }

  lemma SoundDeciding(b: Batch, step: Step)
    requires Sound(b) && (step.Close? || step.Complete? || step.CancelContext?)
    ensures Sound(Next(b, step))
  {
  }

  lemma SoundStep(b: Batch, step: Step)
    requires Sound(b)
    ensures Sound(Next(b, step))
  {
    hide Sound, AfterEnsure, AfterFail, AfterDeliver;
    match step {
      case Ensure(sdk, minted, kind, name) => if minted !in b.calls { SoundEnsure(b, sdk, minted, kind, name); }
      case Fail(id) => SoundFail(b, id);
      case Deliver(id) => SoundDeliver(b, id);
      case Invoke(_, _, _, _, _) | Receive(_) | Leave(_) =>
        hide Next;
        SoundByHandler(b, step);
      case Close(_) | Complete(_) | CancelContext =>
        hide Next;
        SoundDeciding(b, step);
    }
  }

  lemma InvStep(b: Batch, step: Step)
    requires Inv(b)
    ensures Inv(Next(b, step))
  {
    assert Published(b);
    hide HandlersServed, Sound, Published, Next;
    SoundStep(b, step);
    ServedStep(b, step);
  }

  lemma {:induction false} InvRun(b: Batch, steps: seq<Step>)
    requires Inv(b)
    ensures Inv(Run(b, steps))
    decreases |steps|
  {
    hide Inv, Next;
    if steps != [] {
      InvStep(b, steps[0]);
      InvRun(Next(b, steps[0]), steps[1..]);
    }
  }

  lemma EmptyIsSound()
    ensures Inv(Empty())
  {
  }

  // ---- Safety over whole runs ----------------------------------------------

  lemma NeverCompletedAndExpired(steps: seq<Step>)
    ensures var b := Run(Empty(), steps); !(b.expired && b.completed)
  {
    InvRun(Empty(), steps);
  }

  /** Completion succeeds exactly on an open batch, for outputs that name its calls and no others. */
  lemma CompletionNeedsExactOutputs(b: Batch, outputs: map<CallId, Output>)
    requires Inv(b) && !b.completed
    ensures AfterComplete(b, outputs).completed <==>
      && !b.expired
      && outputs.Keys == b.calls.Keys
      && forall id | id in outputs :: var call, output := b.calls[id], outputs[id];
           && (output.kind.None? || output.kind.value == call.kind)
           && (call.kind != Custom || output.name == "" || call.publicName == "" || output.name == call.publicName)
  {
  }

  /** A call is minted with the kind and the name it was asked for, and keeps them. */
  lemma {:induction false} CallKeepsKindAndName(b: Batch, steps: seq<Step>, id: CallId)
    requires id in b.calls
    ensures var c := Run(b, steps);
            id in c.calls && c.calls[id].kind == b.calls[id].kind && c.calls[id].publicName == b.calls[id].publicName
    decreases |steps|
  {
    hide Next;
    if steps != [] {
      StepKeepsKindAndName(b, steps[0], id);
      CallKeepsKindAndName(Next(b, steps[0]), steps[1..], id);
    }
  }

  lemma StepKeepsKindAndName(b: Batch, step: Step, id: CallId)
    requires id in b.calls
    ensures var c := Next(b, step);
            id in c.calls && c.calls[id].kind == b.calls[id].kind && c.calls[id].publicName == b.calls[id].publicName
  {
  }

  /** After any further run, a handler of a new call waits, or waited, on a call of the kind and name it came with. */
  lemma NewCallIsOfItsKind(b: Batch, h: Handler, sdk: SdkId, minted: CallId, kind: ToolKind, name: string,
                           steps: seq<Step>)
    requires minted !in b.calls && h !in b.waiting && h !in b.returned && (sdk == "" || sdk !in b.bySdk)
    ensures var c := Next(b, Invoke(h, sdk, minted, kind, name));
            var d := Run(c, steps);
            && h in c.waiting && c.waiting[h] == minted
            && minted in d.calls && d.calls[minted].kind == kind && d.calls[minted].publicName == name
  {
    hide AfterFail, AfterDeliver, AfterReceive, AfterLeave, AfterComplete, AfterClose;
    CallKeepsKindAndName(Next(b, Invoke(h, sdk, minted, kind, name)), steps, minted);
  }

  /** A settlement, once made, is never changed: each call gets one output or one error. */
  lemma {:induction false} SettledForever(b: Batch, steps: seq<Step>, id: CallId)
    requires id in b.calls && b.calls[id].settled.Some?
    ensures var c := Run(b, steps); id in c.calls && c.calls[id].settled == b.calls[id].settled
    decreases |steps|
  {
    hide Next;
    if steps != [] {
      SettlementStays(b, steps[0], id);
      SettledForever(Next(b, steps[0]), steps[1..], id);
    }
  }

  lemma SettlementStays(b: Batch, step: Step, id: CallId)
    requires id in b.calls && b.calls[id].settled.Some?
    ensures var c := Next(b, step); id in c.calls && c.calls[id].settled == b.calls[id].settled
  {
  }

  /** Once the closer or the completer has finished, every call it found has its one settlement. */
  lemma EveryDecidedCallIsSettled(b: Batch, id: CallId)
    requires Inv(b) && !Open(b) && b.failing == {} && b.delivering == {} && id in b.decided
    ensures id in b.calls
    ensures b.completed ==> id in b.outputs && b.calls[id].settled == Some(Delivered(b.outputs[id].text))
    ensures b.expired ==> b.calls[id].settled == Some(Failed(b.failure))
  {
  }

  /** The decision is final: its outputs, its error and the calls it covers no longer change. */
  lemma {:induction false} DecisionIsFinal(b: Batch, steps: seq<Step>)
    requires !Open(b)
    ensures SameDecision(b, Run(b, steps))
    decreases |steps|
  {
    hide Next;
    if steps != [] {
      DecisionStays(b, steps[0]);
      DecisionIsFinal(Next(b, steps[0]), steps[1..]);
    }
  }

  ghost predicate SameDecision(b: Batch, c: Batch) {
    && c.decided == b.decided && c.expired == b.expired && c.completed == b.completed
    && c.outputs == b.outputs && c.failure == b.failure && forall id :: id in b.calls ==> id in c.calls
  }

  lemma DecisionStays(b: Batch, step: Step)
    requires !Open(b)
    ensures SameDecision(b, Next(b, step))
  {
    hide Next, SameDecision;
    if step.Ensure? || step.Invoke? {
      AddingKeepsDecision(b, step);
    } else if step.Receive? || step.Leave? {
      ReturningKeepsDecision(b, step);
    } else if Settling(step) {
      SettlingKeepsDecision(b, step);
    } else {
      DecidingOnceIsEnough(b, step);
    }
  }

  lemma EnsuringKeepsDecision(b: Batch, sdk: SdkId, minted: CallId, kind: ToolKind, name: string)
    ensures SameDecision(b, AfterEnsure(b, sdk, minted, kind, name))
  {
  }

  lemma AddingKeepsDecision(b: Batch, step: Step)
    requires step.Ensure? || step.Invoke?
    ensures SameDecision(b, Next(b, step))
  {
    EnsuringKeepsDecision(b, step.sdk, step.minted, step.kind, step.name);
    hide AfterEnsure, CallFor;
  }

  lemma ReturningKeepsDecision(b: Batch, step: Step)
    requires step.Receive? || step.Leave?
    ensures SameDecision(b, Next(b, step))
  {
  }

  lemma SettlingKeepsDecision(b: Batch, step: Step)
    requires Settling(step)
    ensures SameDecision(b, Next(b, step))
  {
    FailingKeepsDecision(b, step.id);
    DeliveringKeepsDecision(b, step.id);
    hide AfterFail, AfterDeliver, SameDecision;
  }

  lemma FailingKeepsDecision(b: Batch, id: CallId)
    ensures SameDecision(b, AfterFail(b, id))
  {
  }

  lemma DeliveringKeepsDecision(b: Batch, id: CallId)
    ensures SameDecision(b, AfterDeliver(b, id))
  {
  }

  lemma DecidingOnceIsEnough(b: Batch, step: Step)
    requires !Open(b) && (step.Close? || step.Complete? || step.CancelContext?)
    ensures SameDecision(b, Next(b, step))
  {
  }

  /** A model id keeps its call, so a later handler for a published call waits on that very call. */
  lemma {:induction false} LateHandlerJoinsItsCall(b: Batch, steps: seq<Step>, sdk: SdkId, minted: CallId)
    requires Inv(b) && sdk != "" && sdk in b.bySdk
    ensures var c := Run(b, steps);
            CallFor(c, sdk, minted) == b.bySdk[sdk] && b.bySdk[sdk] in c.calls
    decreases |steps|
  {
    PublishedStays(b, sdk);
    hide Inv, Next, Open;
    if steps != [] {
      InvStep(b, steps[0]);
      PublishedStep(b, steps[0], sdk);
      LateHandlerJoinsItsCall(Next(b, steps[0]), steps[1..], sdk, minted);
    }
  }

  lemma PublishedStays(b: Batch, sdk: SdkId)
    requires Inv(b) && sdk in b.bySdk
    ensures b.bySdk[sdk] in b.calls
  {
  }

  lemma PublishedStep(b: Batch, step: Step, sdk: SdkId)
    requires sdk in b.bySdk
    ensures var c := Next(b, step); sdk in c.bySdk && c.bySdk[sdk] == b.bySdk[sdk]
  {
  }

  // ---- Who gets to return --------------------------------------------------

  /** A waiting handler can go on: its call's channel holds a value, or the batch context is done. */
  predicate CanReturn(b: Batch, h: Handler) {
    h in b.waiting && (Holds(b, b.waiting[h]) || b.contextDone)
  }

  /** While the batch is open, nobody can. */
  lemma OpenBatchHoldsEveryHandler(b: Batch, h: Handler)
    requires Inv(b) && Open(b)
    ensures !CanReturn(b, h) && h !in b.returned
  {
  }

  /** A handler keeps to its call, and comes back once. */
  lemma {:induction false} HandlerKeepsItsCall(b: Batch, steps: seq<Step>, h: Handler)
    requires Inv(b) && (h in b.waiting || h in b.returned)
    ensures KeepsItsCall(b, Run(b, steps), h)
    decreases |steps|
  {
    assert HandlersServed(b);
    hide Inv, Next, HandlersServed;
    if steps == [] {
      WaitsOrIsBack(b, h);
    } else {
      InvStep(b, steps[0]);
      HandlerStep(b, steps[0], h);
      HandlerKeepsItsCall(Next(b, steps[0]), steps[1..], h);
    }
  }

  lemma WaitsOrIsBack(b: Batch, h: Handler)
    requires HandlersServed(b) && (h in b.waiting || h in b.returned)
    ensures KeepsItsCall(b, b, h)
  {
  }

  ghost predicate KeepsItsCall(b: Batch, c: Batch, h: Handler) {
    if h in b.returned then
      h in c.returned && h !in c.waiting && c.returned[h] == b.returned[h]
    else if h in c.returned then
      h in b.waiting && h !in c.waiting && c.returned[h].call == b.waiting[h]
    else
      h in b.waiting && h in c.waiting && c.waiting[h] == b.waiting[h]
  }

  lemma HandlerStep(b: Batch, step: Step, h: Handler)
    requires HandlersServed(b) && (h in b.waiting || h in b.returned)
    ensures KeepsItsCall(b, Next(b, step), h)
  {
    if !ByHandler(step) {
      OthersLeaveHandlers(b, step);
      hide Next;
    } else {
      OwnStep(b, step, h);
    }
  }

  lemma OwnStep(b: Batch, step: Step, h: Handler)
    requires HandlersServed(b) && (h in b.waiting || h in b.returned) && ByHandler(step)
    ensures KeepsItsCall(b, Next(b, step), h)
  {
    assert b.waiting.Keys !! b.returned.Keys;
    hide HandlersServed;
    if step.Invoke? {
      InvokedApart(b, step, h);
    } else {
      ReturnedApart(b, step, h);
    }
  }

  lemma InvokedApart(b: Batch, step: Step, h: Handler)
    requires b.waiting.Keys !! b.returned.Keys && (h in b.waiting || h in b.returned) && step.Invoke?
    ensures KeepsItsCall(b, Next(b, step), h)
  {
    if step.minted !in b.calls { EnsuringLeavesHandlers(b, step.sdk, step.minted, step.kind, step.name); }
    hide AfterEnsure, CallFor;
  }

  lemma ReturnedApart(b: Batch, step: Step, h: Handler)
    requires b.waiting.Keys !! b.returned.Keys && (h in b.waiting || h in b.returned) && (step.Receive? || step.Leave?)
    ensures KeepsItsCall(b, Next(b, step), h)
  {
    hide Holds;
  }

  /** A value taken stays taken. */
  lemma {:induction false} TakenForever(b: Batch, steps: seq<Step>, id: CallId)
    requires id in b.takenBy
    ensures var c := Run(b, steps); id in c.takenBy && c.takenBy[id] == b.takenBy[id]
    decreases |steps|
  {
    hide Next;
    if steps != [] {
      TakenStays(b, steps[0], id);
      TakenForever(Next(b, steps[0]), steps[1..], id);
    }
  }

  lemma TakenStays(b: Batch, step: Step, id: CallId)
    requires id in b.takenBy
    ensures var c := Next(b, step); id in c.takenBy && c.takenBy[id] == b.takenBy[id]
  {
  }

  /** Over every run: whoever comes back with a value has his own call's, and nobody else has that call's. */
  lemma EachValueReturnsOnce(steps: seq<Step>, h: Handler, g: Handler)
    ensures var b := Run(Empty(), steps);
            h in b.returned && b.returned[h].Received? ==>
              && var id := b.returned[h].call;
              && id in b.calls && b.calls[id].settled == Some(b.returned[h].settlement)
              && (b.completed ==> id in b.outputs && b.returned[h].settlement == Delivered(b.outputs[id].text))
              && (g in b.returned && b.returned[g].Received? && b.returned[g].call == id ==> g == h)
    ensures var b := Run(Empty(), steps); h in b.returned && b.returned[h].ContextEnded? ==> b.expired
  {
    InvRun(Empty(), steps);
  }

  function PendingWork(b: Batch): nat {
    |b.failing| + |b.delivering| + (if b.expired && !b.contextDone then 1 else 0)
  }

  /** The closer or the completer, left alone, finishes its work. */
  lemma {:induction false} WorkFinishes(b: Batch) returns (steps: seq<Step>)
    requires Inv(b) && !Open(b)
    ensures var c := Run(b, steps); c.failing == {} && c.delivering == {} && (c.expired ==> c.contextDone)
    ensures Run(b, steps).waiting == b.waiting && Run(b, steps).takenBy == b.takenBy
    ensures forall step :: step in steps ==> step.Fail? || step.Deliver? || step.CancelContext?
    decreases PendingWork(b)
  {
    if PendingWork(b) == 0 {
      steps := [];
    } else {
      var step := NextWork(b);
      InvStep(b, step);
      var rest := WorkFinishes(Next(b, step));
      steps := [step] + rest;
      assert steps[1..] == rest;
    }
  }

  lemma NextWork(b: Batch) returns (step: Step)
    requires Inv(b) && !Open(b) && PendingWork(b) > 0
    ensures step.Fail? || step.Deliver? || step.CancelContext?
    ensures PendingWork(Next(b, step)) < PendingWork(b) && !Open(Next(b, step))
    ensures Next(b, step).waiting == b.waiting && Next(b, step).takenBy == b.takenBy
  {
    hide HandlersServed;
    if id: CallId :| id in b.failing {
      step := Fail(id);
      assert b.failing == (b.failing - {id}) + {id};
    } else if id: CallId :| id in b.delivering {
      step := Deliver(id);
      assert b.delivering == (b.delivering - {id}) + {id};
    } else {
      assert b.failing == {} && b.delivering == {};
      step := CancelContext;
    }
  }

  lemma {:induction false} RunConcat(b: Batch, first: seq<Step>, second: seq<Step>)
    ensures Run(b, first + second) == Run(Run(b, first), second)
    decreases |first|
  {
    hide Next;
    if first == [] {
      assert first + second == second;
    } else {
      assert (first + second)[1..] == first[1..] + second;
      RunConcat(Next(b, first[0]), first[1..], second);
    }
  }

  /**
   A handler waiting in a decided batch can come back, now or ever, exactly if the batch
   expired, or the batch was decided with its call and no other handler has taken the
   call's value. So a completion brings back one handler for each call it covered; every
   other one waits for ever, and an expiry brings back all.
   */
  lemma HandlerReturnsExactlyIf(b: Batch, h: Handler)
    requires Inv(b) && !Open(b) && h in b.waiting
    ensures (exists steps :: h in Run(b, steps).returned)
       <==> b.expired || (b.waiting[h] in b.decided && b.waiting[h] !in b.takenBy)
  {
    if b.expired || (b.waiting[h] in b.decided && b.waiting[h] !in b.takenBy) {
      var steps := HandlerComesBack(b, h);
      assert h in Run(b, steps).returned;
    } else {
      forall steps ensures h !in Run(b, steps).returned {
        HandlerWaitsForEver(b, steps, h);
      }
    }
  }

  /** With the closer's or completer's work done it needs one more step, its own. */
  lemma HandlerComesBack(b: Batch, h: Handler) returns (steps: seq<Step>)
    requires Inv(b) && !Open(b) && h in b.waiting
    requires b.expired || (b.waiting[h] in b.decided && b.waiting[h] !in b.takenBy)
    ensures h in Run(b, steps).returned
  {
    var work := WorkFinishes(b);
    DecisionIsFinal(b, work);
    InvRun(b, work);
    var c := Run(b, work);
    var last := if c.expired then Leave(h) else Receive(h);
    assert CanReturn(c, h);
    RunConcat(b, work, [last]);
    assert Run(c, [last]) == Next(c, last);
    steps := work + [last];
  }

  lemma HandlerWaitsForEver(b: Batch, steps: seq<Step>, h: Handler)
    requires Inv(b) && b.completed && h in b.waiting
    requires b.waiting[h] !in b.decided || b.waiting[h] in b.takenBy
    ensures h in Run(b, steps).waiting && h !in Run(b, steps).returned
  {
    DecisionIsFinal(b, steps);
    InvRun(b, steps);
    HandlerKeepsItsCall(b, steps, h);
    if b.waiting[h] in b.takenBy {
      TakenForever(b, steps, b.waiting[h]);
    }
  }

  /** An expired batch brings everybody back: once the closer is done, all can go at any time. */
  lemma ExpiryReleasesEveryHandler(b: Batch) returns (steps: seq<Step>)
    requires Inv(b) && b.expired
    ensures forall step :: step in steps ==> step.Fail? || step.Deliver? || step.CancelContext?
    ensures forall h, more :: h in b.waiting && h in Run(Run(b, steps), more).waiting ==>
      CanReturn(Run(Run(b, steps), more), h)
  {
    steps := WorkFinishes(b);
    DecisionIsFinal(b, steps);
    InvRun(b, steps);
    var c := Run(b, steps);
    forall h, more | h in b.waiting && h in Run(c, more).waiting ensures CanReturn(Run(c, more), h) {
      ContextStaysDone(c, more);
    }
  }

  lemma {:induction false} ContextStaysDone(b: Batch, steps: seq<Step>)
    requires b.contextDone
    ensures Run(b, steps).contextDone
    decreases |steps|
  {
    hide Next;
    if steps != [] {
      assert Next(b, steps[0]).contextDone by { DoneStaysDone(b, steps[0]); }
      ContextStaysDone(Next(b, steps[0]), steps[1..]);
    }
  }

  lemma DoneStaysDone(b: Batch, step: Step)
    requires b.contextDone
    ensures Next(b, step).contextDone
  {
  }

  /** A handler that joins a call after a completion, its value already taken, waits for ever. */
  lemma HandlerBehindTheFirstIsStranded(b: Batch, h: Handler, sdk: SdkId, minted: CallId, kind: ToolKind, name: string)
    requires Inv(b) && b.completed && minted !in b.calls && h !in b.waiting && h !in b.returned
    requires sdk != "" && sdk in b.bySdk && b.bySdk[sdk] in b.takenBy
    ensures var late := Next(b, Invoke(h, sdk, minted, kind, name));
            forall steps :: h in Run(late, steps).waiting
  {
    InvStep(b, Invoke(h, sdk, minted, kind, name));
    var late := Next(b, Invoke(h, sdk, minted, kind, name));
    forall steps ensures h in Run(late, steps).waiting {
      HandlerWaitsForEver(late, steps, h);
    }
  }

  /** So does one whose call was added after the completion: it passed the open check just before. */
  lemma CallAddedAfterCompletionIsStranded(b: Batch, h: Handler, sdk: SdkId, minted: CallId, kind: ToolKind,
                                           name: string)
    requires Inv(b) && b.completed && minted !in b.calls && h !in b.waiting && h !in b.returned
    requires sdk == "" || sdk !in b.bySdk
    ensures var late := Next(b, Invoke(h, sdk, minted, kind, name));
            minted in late.calls && forall steps :: h in Run(late, steps).waiting
  {
    InvStep(b, Invoke(h, sdk, minted, kind, name));
    var late := Next(b, Invoke(h, sdk, minted, kind, name));
    forall steps ensures h in Run(late, steps).waiting {
      HandlerWaitsForEver(late, steps, h);
    }
  }

  /** A batch with one call, "call_1", whose handler is back with the output the client gave. */
  function Answered(first: CallId, text: Text): Batch {
    var invoked := Next(Empty(), Invoke(1, "call_1", first, Function, "tool"));
    var completed := Next(invoked, Complete(map[first := Output(None, "", text)]));
    Next(Next(completed, Deliver(first)), Receive(1))
  }

  lemma AnsweredIsSound(first: CallId, text: Text)
    ensures Inv(Answered(first, text))
  {
    EmptyIsSound();
    hide Inv, Next, Empty;
    var invoke, complete := Invoke(1, "call_1", first, Function, "tool"),
                            Complete(map[first := Output(None, "", text)]);
    InvStep(Empty(), invoke);
    InvStep(Next(Empty(), invoke), complete);
    InvStep(Next(Next(Empty(), invoke), complete), Deliver(first));
    InvStep(Next(Next(Next(Empty(), invoke), complete), Deliver(first)), Receive(1));
  }

  lemma FirstHandlerIsAnswered(first: CallId, text: Text)
    ensures var b := Answered(first, text);
            && Inv(b) && b.completed && b.calls == map[first := Call(Function, "tool", Some(Delivered(text)))]
            && b.bySdk == map["call_1" := first] && b.waiting == map[] && b.takenBy == map[first := 1]
            && b.returned == map[1 := Received(first, Delivered(text))]
  {
    AnsweredIsSound(first, text);
    hide Inv;
    var invoked := Next(Empty(), Invoke(1, "call_1", first, Function, "tool"));
    assert MatchesCalls(invoked, map[first := Output(None, "", text)]);
    var delivered := Next(Next(invoked, Complete(map[first := Output(None, "", text)])), Deliver(first));
    assert delivered.calls == map[first := Call(Function, "tool", Some(Delivered(text)))];
    assert Next(delivered, Receive(1)).waiting == map[];
  }

  /** The model's id comes round again in the same batch, and the second handler waits for ever. */
  lemma SecondHandlerIsStranded(first: CallId, minted: CallId, text: Text)
    requires first != minted
    ensures var late := Next(Answered(first, text), Invoke(2, "call_1", minted, Function, "tool"));
            && late.waiting == map[2 := first] && first in late.calls
              && late.calls[first].settled == Some(Delivered(text))
            && forall steps :: 2 in Run(late, steps).waiting
  {
    var b := Answered(first, text);
    FirstHandlerIsAnswered(first, text);
    assert b.takenBy[first] == 1;
    HandlerBehindTheFirstIsStranded(b, 2, "call_1", minted, Function, "tool");
  }

  /** A client answers the one call it was shown, and meanwhile the model's second call arrives. */
  lemma SecondCallArrivesTooLate(first: CallId, second: CallId, text: Text)
    requires first != second
    ensures var late := Next(Answered(first, text), Invoke(2, "call_2", second, Function, "tool"));
            second in late.calls && forall steps :: 2 in Run(late, steps).waiting
  {
    FirstHandlerIsAnswered(first, text);
    assert "call_1"[5] != "call_2"[5];
    CallAddedAfterCompletionIsStranded(Answered(first, text), 2, "call_2", second, Function, "tool");
  }

  /** The batch itself. Every method but the two settlements is one section under its mutex. */
  class PendingBatch {
    var calls: map<CallId, Call>
    var bySdk: map<SdkId, CallId>
    var expired: bool
    var completed: bool
    var contextDone: bool
    var failing: set<CallId>
    var failure: Error
    var delivering: set<CallId>
    ghost var decided: set<CallId>
    var outputs: map<CallId, Output>
    var waiting: map<Handler, CallId>
    var takenBy: map<CallId, Handler>
    ghost var returned: map<Handler, Return>

    ghost function State(): Batch
      reads this
    {
      Batch(calls, bySdk, expired, completed, contextDone, failing, failure, delivering, decided, outputs,
            waiting, takenBy, returned)
    }

    constructor ()
      ensures State() == Empty() && Inv(State())
    {
      calls, bySdk, expired, completed, contextDone := map[], map[], false, false, false;
      failing, failure, delivering, decided, outputs := {}, Expired, {}, {}, map[];
      waiting, takenBy, returned := map[], map[], map[];
    }

    /** Returns the batch's call for a model id, minting it on first sight. */
    method EnsureCall(sdk: SdkId, minted: CallId, kind: ToolKind, name: string) returns (id: CallId)
      requires minted !in calls
      modifies this
      ensures State() == AfterEnsure(old(State()), sdk, minted, kind, name)
      ensures id == CallFor(old(State()), sdk, minted)
    {
      if sdk != "" && sdk in bySdk {
        return bySdk[sdk];
      }
      calls := calls[minted := Call(kind, name, None)];
      if sdk != "" {
        bySdk := bySdk[sdk := minted];
      }
      return minted;
    }

    /** A handler finds or mints its call and begins to wait on it. */
    method HandleInvocation(h: Handler, sdk: SdkId, minted: CallId, kind: ToolKind, name: string)
      requires minted !in calls && h !in waiting && h !in returned
      modifies this
      ensures State() == AfterInvoke(old(State()), h, sdk, minted, kind, name)
    {
      var id := EnsureCall(sdk, minted, kind, name);
      waiting := waiting[h := id];
    }

    /** The wait of a handler that can go on; with both at hand it may take either. */
    method Wait(h: Handler, eitherWay: bool) returns (r: Return)
      requires CanReturn(State(), h)
      modifies this
      ensures State() == if r.Received? then AfterReceive(old(State()), h) else AfterLeave(old(State()), h)
      ensures h in returned && returned[h] == r && r.call == old(waiting[h])
      ensures r.Received? ==> Holds(old(State()), r.call) && Some(r.settlement) == old(calls)[r.call].settled
      ensures r.ContextEnded? ==> contextDone
    {
      var id := waiting[h];
      if id in calls && calls[id].settled.Some? && id !in takenBy && (eitherWay || !contextDone) {
        r := Received(id, calls[id].settled.value);
        takenBy := takenBy[id := h];
      } else {
        r := ContextEnded(id);
      }
      waiting := waiting - {h};
      returned := returned[h := r];
    }

    /** The lock section of a close; the calls it found are failed afterwards. */
    method CloseBatch(error: Error)
      modifies this
      ensures State() == AfterClose(old(State()), error)
    {
      if expired || completed {
        return;
      }
      expired := true;
      failure := error;
      failing := calls.Keys;
      decided := calls.Keys;
    }

    method FailCall(id: CallId)
      requires id in failing && id in calls
      modifies this
      ensures State() == AfterFail(old(State()), id)
    {
      if calls[id].settled.None? {
        calls := calls[id := calls[id].(settled := Some(Failed(failure)))];
      }
      failing := failing - {id};
    }

    /** The lock section of a completion: nothing changes unless every output fits its call. */
    method CompleteToolOutputs(offered: map<CallId, Output>, late: bool) returns (r: Completion)
      requires Inv(State())
      modifies this
      ensures State() == if late then AfterClose(old(State()), Expired) else AfterComplete(old(State()), offered)
      ensures r == Completed <==> !late && Open(old(State())) && MatchesCalls(old(State()), offered)
      ensures r == BatchExpired <==> old(expired) || late
      ensures r == AlreadyCompleted <==> old(completed) && !late
    {
      if expired {
        return BatchExpired;
      }
      if late {
        CloseBatch(Expired);
        return BatchExpired;
      }
      if completed {
        return AlreadyCompleted;
      }
      if |offered| != |calls| {
        assert |offered.Keys| == |offered| && |calls.Keys| == |calls|;
        return WrongCount;
      }
      var todo := offered.Items;
      while todo != {}
        invariant todo <= offered.Items
        invariant forall id :: id in offered && (id, offered[id]) !in todo ==>
          id in calls && Accepts(calls[id], offered[id])
        modifies {}
        decreases todo
      {
        var item :| item in todo;
        todo := todo - {item};
        var (id, output) := item;
        if id !in calls {
          return UnknownCall;
        }
        if !Accepts(calls[id], output) {
          return WrongOutput;
        }
      }
      forall id | id in offered ensures id in calls && Accepts(calls[id], offered[id]) {
        assert (id, offered[id]) !in todo;
      }
      assert |offered.Keys| == |offered| && |calls.Keys| == |calls|;
      SubsetSize(offered.Keys, calls.Keys);
      completed := true;
      delivering := offered.Keys;
      decided := offered.Keys;
      outputs := offered;
      return Completed;
    }

    method DeliverCall(id: CallId)
      requires id in delivering && id in calls && id in outputs
      modifies this
      ensures State() == AfterDeliver(old(State()), id)
    {
      if calls[id].settled.None? {
        calls := calls[id := calls[id].(settled := Some(Delivered(outputs[id].text)))];
      }
      delivering := delivering - {id};
    }
  }
}
