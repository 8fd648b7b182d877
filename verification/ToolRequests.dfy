/**
 The tools of one request (internal/toolproxy/toolproxy.go, RequestTools): a model
 turn streams argument fragments, invokes handlers and finally announces its tool
 requests, in any order, and all three must name one and the same call.

 Call ids come from a counter: the source mints UUIDs, which never repeat.
 */
module ToolRequests {
  import opened Common

  type SdkId = string
  type CallId = nat

  datatype Tool = Tool(strict: bool, kind: ToolKind, responseName: string)

  /** A tool request or invocation; `conforms` is the verdict of the strict schema on its arguments. */
  datatype Request = Request(sdk: SdkId, tool: string, custom: bool, conforms: bool)

  /** The batch handlers join: its calls by model id, and the kind each call was minted with. */
  datatype Batch = Batch(open: bool, bySdk: map<SdkId, CallId>, kinds: map<CallId, ToolKind>)

  /** The request's state, the id counter, and what this turn has streamed so far. */
  datatype Tools = Tools(
    client: map<string, Tool>,
    reserved: map<SdkId, CallId>,
    batch: Batch,
    next: CallId,
    streamed: map<SdkId, CallId>)

  function Published(s: Tools): map<SdkId, CallId> {
    if s.batch.open then s.batch.bySdk else map[]
  }

  function EffectiveKind(tool: Tool, custom: bool): ToolKind {
    if custom && tool.kind == Function then Custom else tool.kind
  }

  predicate Streamable(s: Tools, req: Request) {
    req.tool in s.client && !s.client[req.tool].strict && EffectiveKind(s.client[req.tool], req.custom) == Function
  }

  /** Decides whether a call's fragments may be streamed, and pins the id they must use. */
  function Reserve(s: Tools, req: Request): (Tools, Option<CallId>) {
    if req.sdk == "" || req.tool == "" then (s, None)
    else if req.sdk in s.reserved then
      (s.(streamed := s.streamed[req.sdk := s.reserved[req.sdk]]), Some(s.reserved[req.sdk]))
    else if req.sdk in Published(s) || !Streamable(s, req) then (s, None)
    else (s.(reserved := s.reserved[req.sdk := s.next], streamed := s.streamed[req.sdk := s.next], next := s.next + 1),
          Some(s.next))
  }

  /** A closed batch receives no further call; the next one gets a batch of its own. */
  function WithOpenBatch(s: Tools): Tools {
    if s.batch.open then s else s.(batch := Batch(true, map[], map[]))
  }

  /** The call for a model id: the one it already has, the reserved one, or a fresh one. */
  function EnsureCall(s: Tools, sdk: SdkId, kind: ToolKind): (Tools, CallId) {
    if sdk != "" && sdk in s.batch.bySdk then (s, s.batch.bySdk[sdk])
    else
      var reserved := sdk != "" && sdk in s.reserved;
      var id := if reserved then s.reserved[sdk] else s.next;
      (s.(reserved := s.reserved - {sdk},
          next := if reserved then s.next else s.next + 1,
          batch := s.batch.(bySdk := if sdk != "" then s.batch.bySdk[sdk := id] else s.batch.bySdk,
                            kinds := s.batch.kinds[id := kind])),
       id)
  }

  predicate Refused(s: Tools, req: Request) {
    req.tool !in s.client || (s.client[req.tool].strict && !req.conforms)
  }

  /** A handler's first half: the call it will wait on, or none if it is refused. */
  function Invoke(s: Tools, req: Request): (Tools, Option<CallId>) {
    var t := WithOpenBatch(s);
    if Refused(t, req) then (t, None)
    else
      var (u, id) := EnsureCall(t, req.sdk, t.client[req.tool].kind);
      (u, Some(id))
  }

  function CaptureAll(s: Tools, reqs: seq<Request>): (Tools, Option<seq<CallId>>)
    decreases |reqs|
  {
    if reqs == [] then (s, Some([]))
    else if Refused(s, reqs[0]) then (s, None)
    else
      var (t, id) := EnsureCall(s, reqs[0].sdk, EffectiveKind(s.client[reqs[0].tool], reqs[0].custom));
      var (u, rest) := CaptureAll(t, reqs[1..]);
      (u, if rest.Some? then Some([id] + rest.value) else None)
  }

  /** The turn's boundary. A refusal leaves reservations for the abort that follows it. */
  function Capture(s: Tools, reqs: seq<Request>): (Tools, Option<seq<CallId>>) {
    var (t, ids) := CaptureAll(WithOpenBatch(s), reqs);
    if ids.Some? then (t.(reserved := map[]), ids) else (t, None)
  }

  function CancelCurrent(s: Tools): Tools {
    s.(reserved := map[], batch := s.batch.(open := false))
  }

  function BatchCloses(s: Tools): Tools {
    s.(batch := s.batch.(open := false))
  }

  datatype Step = Fragment(req: Request) | Invocation(req: Request)

  function Next(s: Tools, step: Step): Tools {
    match step
    case Fragment(req) => Reserve(s, req).0
    case Invocation(req) => Invoke(s, req).0
  }

  function Run(s: Tools, steps: seq<Step>): Tools
    decreases |steps|
  {
    if steps == [] then s else Run(Next(s, steps[0]), steps[1..])
  }

  // ---- Refusals --------------------------------------------------------------

  lemma {:induction false} CaptureAllFailsExactlyIf(s: Tools, reqs: seq<Request>)
    ensures CaptureAll(s, reqs).1.None? <==>
      exists i :: 0 <= i < |reqs|
        && (reqs[i].tool !in s.client || (s.client[reqs[i].tool].strict && !reqs[i].conforms))
    decreases |reqs|
  {
    if reqs != [] && !Refused(s, reqs[0]) {
      CaptureAllFailsExactlyIf(EnsureCall(s, reqs[0].sdk, EffectiveKind(s.client[reqs[0].tool], reqs[0].custom)).0,
                               reqs[1..]);
      assert reqs == [reqs[0]] + reqs[1..];
    }
  }

  /**
   A capture fails exactly if one of its requests names a tool the client did not
   configure, or a strict one with arguments that do not conform; so does an invocation.
   */
  lemma CaptureFailsExactlyIf(s: Tools, reqs: seq<Request>)
    ensures Capture(s, reqs).1.None? <==>
      exists i :: 0 <= i < |reqs|
        && (reqs[i].tool !in s.client || (s.client[reqs[i].tool].strict && !reqs[i].conforms))
    ensures |reqs| == 1 ==> (Invoke(s, reqs[0]).1.None? <==> Capture(s, reqs).1.None?)
  {
    CaptureAllFailsExactlyIf(WithOpenBatch(s), reqs);
  }

  // ---- One call, one identity ----------------------------------------------

  /** Ids are never shared: not between two calls, nor between a call and a reservation. */
  ghost predicate IdsDistinct(s: Tools) {
    && (forall sdk :: sdk in s.reserved ==> sdk != "" && s.reserved[sdk] < s.next && s.reserved[sdk] !in s.batch.kinds)
    && (forall id :: id in s.batch.kinds ==> id < s.next)
    && (forall sdk :: sdk in s.batch.bySdk ==> sdk != "" && s.batch.bySdk[sdk] in s.batch.kinds)
    && (forall a, b :: a in s.reserved && b in s.reserved && s.reserved[a] == s.reserved[b] ==> a == b)
    && (forall a, b :: a in s.batch.bySdk && b in s.batch.bySdk && s.batch.bySdk[a] == s.batch.bySdk[b] ==> a == b)
  }

  /** What was streamed for a model id is still reserved for it or is the id of its call. */
  ghost predicate OneIdentity(s: Tools) {
    && s.reserved.Keys <= s.streamed.Keys
    && forall sdk :: sdk in s.streamed ==>
         || (sdk in s.reserved && s.reserved[sdk] == s.streamed[sdk] && sdk !in Published(s))
         || (sdk !in s.reserved && sdk in Published(s) && Published(s)[sdk] == s.streamed[sdk])
  }

  ghost predicate Inv(s: Tools) {
    IdsDistinct(s) && OneIdentity(s)
  }

  lemma InvReserve(s: Tools, req: Request)
    requires Inv(s)
    ensures Inv(Reserve(s, req).0)
  {
  }

  lemma InvEnsureCall(s: Tools, sdk: SdkId, kind: ToolKind)
    requires Inv(s) && s.batch.open
    ensures Inv(EnsureCall(s, sdk, kind).0) && EnsureCall(s, sdk, kind).0.batch.open
    ensures sdk in s.streamed ==> EnsureCall(s, sdk, kind).1 == s.streamed[sdk]
  {
  }

  lemma InvOpenBatch(s: Tools)
    requires Inv(s)
    ensures Inv(WithOpenBatch(s)) && WithOpenBatch(s).batch.open
  {
  }

  lemma InvInvoke(s: Tools, req: Request)
    requires Inv(s)
    ensures Inv(Invoke(s, req).0)
  {
    var t := WithOpenBatch(s);
    InvOpenBatch(s);
    if !Refused(t, req) { InvEnsureCall(t, req.sdk, t.client[req.tool].kind); }
  }

  lemma {:induction false} InvRun(s: Tools, steps: seq<Step>)
    requires Inv(s)
    ensures Inv(Run(s, steps))
    decreases |steps|
  {
    if steps != [] {
      match steps[0]
      case Fragment(req) =>
        InvReserve(s, req);
        InvRun(Next(s, steps[0]), steps[1..]);
      case Invocation(req) =>
        InvInvoke(s, req);
        InvRun(Next(s, steps[0]), steps[1..]);
    }
  }

  lemma {:induction false} CaptureAllKeepsIdentity(s: Tools, reqs: seq<Request>)
    requires Inv(s) && s.batch.open
    ensures var (t, ids) := CaptureAll(s, reqs);
            && Inv(t) && t.batch.open && t.streamed == s.streamed
            && (ids.Some? ==>
                  && |ids.value| == |reqs|
                  && forall i :: 0 <= i < |reqs| && reqs[i].sdk in s.streamed ==>
                    ids.value[i] == s.streamed[reqs[i].sdk])
    decreases |reqs|
  {
    if reqs != [] && !Refused(s, reqs[0]) {
      var kind := EffectiveKind(s.client[reqs[0].tool], reqs[0].custom);
      InvEnsureCall(s, reqs[0].sdk, kind);
      CaptureAllKeepsIdentity(EnsureCall(s, reqs[0].sdk, kind).0, reqs[1..]);
      forall i | 0 < i < |reqs| ensures reqs[i] == reqs[1..][i - 1] {}
    }
  }

  /**
   Within a turn, in any order of fragments, invocations and the final capture, the
   id streamed for a model id is the id of its captured call, and no reservation
   outlives the capture.
   */
  lemma StreamedIdIsCapturedId(s: Tools, steps: seq<Step>, reqs: seq<Request>)
    requires IdsDistinct(s) && s.reserved == map[] && s.streamed == map[]
    ensures var t := Run(s, steps);
            var (u, ids) := Capture(t, reqs);
            ids.Some? ==>
              && |ids.value| == |reqs|
              && (forall i :: 0 <= i < |reqs| && reqs[i].sdk in t.streamed ==> ids.value[i] == t.streamed[reqs[i].sdk])
              && u.reserved == map[]
  {
    InvRun(s, steps);
    var t := Run(s, steps);
    InvOpenBatch(t);
    CaptureAllKeepsIdentity(WithOpenBatch(t), reqs);
  }

  /** An invocation, too, waits on the call whose id was streamed. */
  lemma InvocationJoinsStreamedCall(s: Tools, steps: seq<Step>, req: Request)
    requires IdsDistinct(s) && s.reserved == map[] && s.streamed == map[]
    ensures var t := Run(s, steps);
            var id := Invoke(t, req).1;
            id.Some? && req.sdk in t.streamed ==> id.value == t.streamed[req.sdk]
  {
    InvRun(s, steps);
    var t := Run(s, steps);
    InvOpenBatch(t);
    var u := WithOpenBatch(t);
    if !Refused(u, req) { InvEnsureCall(u, req.sdk, u.client[req.tool].kind); }
  }

  /** Strict, unknown and custom tools are never streamed, nor is a call without an id. */
  lemma OnlyPlainFunctionsAreReserved(s: Tools, req: Request)
    requires req.sdk !in s.reserved
    ensures Reserve(s, req).1.Some? <==>
      req.sdk != "" && req.tool != "" && req.sdk !in Published(s) && Streamable(s, req)
    ensures Reserve(s, req).1.Some? ==> Reserve(s, req).1.value == s.next && Reserve(s, req).0.next == s.next + 1
  {
  }

  /** A reservation becomes at most one call: once consumed, its id belongs to that call. */
  lemma ReservationConsumedOnce(s: Tools, sdk: SdkId, kind: ToolKind, other: SdkId, otherKind: ToolKind)
    requires Inv(s) && s.batch.open && sdk in s.reserved && sdk != other
    ensures var (t, id) := EnsureCall(s, sdk, kind);
            && id == s.reserved[sdk] && sdk !in t.reserved
            && EnsureCall(t, sdk, otherKind) == (t, id)
            && EnsureCall(t, other, otherKind).1 != id
  {
    InvEnsureCall(s, sdk, kind);
  }

  /** A cancelled turn leaves no reservation behind. */
  lemma CancelReleasesReservations(s: Tools, steps: seq<Step>)
    ensures CancelCurrent(Run(s, steps)).reserved == map[]
  {
  }

  /**
   A handler for a call the batch has published joins it exactly if the batch is
   still open when the handler arrives; otherwise it opens a batch of its own.
   */
  lemma HandlerJoinsPublishedCallExactlyIf(s: Tools, req: Request)
    requires IdsDistinct(s) && req.sdk in s.batch.bySdk && req.sdk != "" && !Refused(s, req)
    ensures Invoke(s, req).1 == Some(s.batch.bySdk[req.sdk]) <==> s.batch.open
  {
  }

  /** A turn in which batches may close, by their TTL or a shutdown, at any moment and any number of times. */
  datatype TurnStep = Does(step: Step) | Closes

  function After(s: Tools, step: TurnStep): Tools {
    match step
    case Does(step) => Next(s, step)
    case Closes => BatchCloses(s)
  }

  function RunTurn(s: Tools, turn: seq<TurnStep>): Tools
    decreases |turn|
  {
    if turn == [] then s else RunTurn(After(s, turn[0]), turn[1..])
  }

  /** Somewhere in the turn a batch closes that holds the call of this model id. */
  predicate ClosesOver(s: Tools, turn: seq<TurnStep>, sdk: SdkId)
    decreases |turn|
  {
    turn != [] && ((turn[0].Closes? && sdk in Published(s)) || ClosesOver(After(s, turn[0]), turn[1..], sdk))
  }

  /** The id is reserved for the model id, or is its call's in the open batch. */
  predicate Keeps(s: Tools, sdk: SdkId, id: CallId) {
    && sdk != "" && id < s.next
    && if sdk in s.reserved then s.reserved[sdk] == id && sdk !in Published(s)
       else sdk in Published(s) && Published(s)[sdk] == id
  }

  /** The id is neither, and will not be again. */
  predicate Splits(s: Tools, sdk: SdkId, id: CallId) {
    && sdk != "" && id < s.next
    && (sdk in s.reserved ==> s.reserved[sdk] != id)
    && (sdk in Published(s) ==> Published(s)[sdk] != id)
  }

  lemma ReserveSettlesNothing(s: Tools, req: Request, sdk: SdkId, id: CallId)
    ensures Keeps(s, sdk, id) ==> Keeps(Reserve(s, req).0, sdk, id)
    ensures Splits(s, sdk, id) ==> Splits(Reserve(s, req).0, sdk, id)
  {
  }

  lemma OpeningSettlesNothing(s: Tools, sdk: SdkId, id: CallId)
    ensures WithOpenBatch(s).batch.open
    ensures Keeps(s, sdk, id) ==> Keeps(WithOpenBatch(s), sdk, id)
    ensures Splits(s, sdk, id) ==> Splits(WithOpenBatch(s), sdk, id)
  {
  }

  lemma EnsureSettlesNothing(s: Tools, other: SdkId, kind: ToolKind, sdk: SdkId, id: CallId)
    requires s.batch.open
    ensures EnsureCall(s, other, kind).0.batch.open
    ensures Keeps(s, sdk, id) ==> Keeps(EnsureCall(s, other, kind).0, sdk, id)
    ensures Splits(s, sdk, id) ==> Splits(EnsureCall(s, other, kind).0, sdk, id)
    ensures Keeps(s, sdk, id) && other == sdk ==> EnsureCall(s, other, kind).1 == id
    ensures Splits(s, sdk, id) && other == sdk ==> EnsureCall(s, other, kind).1 != id
  {
  }

  lemma StepSettlesNothing(s: Tools, step: Step, sdk: SdkId, id: CallId)
    ensures Keeps(s, sdk, id) ==> Keeps(Next(s, step), sdk, id)
    ensures Splits(s, sdk, id) ==> Splits(Next(s, step), sdk, id)
  {
    hide Keeps, Splits, Reserve, EnsureCall, WithOpenBatch;
    match step {
      case Fragment(req) => ReserveSettlesNothing(s, req, sdk, id);
      case Invocation(req) =>
        OpeningSettlesNothing(s, sdk, id);
        var t := WithOpenBatch(s);
        if !Refused(t, req) { EnsureSettlesNothing(t, req.sdk, t.client[req.tool].kind, sdk, id); }
    }
  }

  lemma ClosingSettles(s: Tools, sdk: SdkId, id: CallId)
    ensures Keeps(s, sdk, id) && sdk !in Published(s) ==> Keeps(BatchCloses(s), sdk, id)
    ensures Keeps(s, sdk, id) && sdk in Published(s) ==> Splits(BatchCloses(s), sdk, id)
    ensures Splits(s, sdk, id) ==> Splits(BatchCloses(s), sdk, id)
  {
  }

  lemma {:induction false} SplitForGood(s: Tools, turn: seq<TurnStep>, sdk: SdkId, id: CallId)
    requires Splits(s, sdk, id)
    ensures Splits(RunTurn(s, turn), sdk, id)
    decreases |turn|
  {
    hide Keeps, Splits, Next, BatchCloses;
    if turn != [] {
      if turn[0].Closes? {
        ClosingSettles(s, sdk, id);
      } else {
        StepSettlesNothing(s, turn[0].step, sdk, id);
      }
      SplitForGood(After(s, turn[0]), turn[1..], sdk, id);
    }
  }

  lemma {:induction false} TurnSettles(s: Tools, turn: seq<TurnStep>, sdk: SdkId, id: CallId)
    requires Keeps(s, sdk, id)
    ensures if ClosesOver(s, turn, sdk) then Splits(RunTurn(s, turn), sdk, id) else Keeps(RunTurn(s, turn), sdk, id)
    decreases |turn|
  {
    hide Keeps, Splits, Next, BatchCloses, Published;
    if turn != [] {
      if turn[0].Closes? {
        ClosingSettles(s, sdk, id);
      } else {
        StepSettlesNothing(s, turn[0].step, sdk, id);
      }
      if turn[0].Closes? && sdk in Published(s) {
        SplitForGood(After(s, turn[0]), turn[1..], sdk, id);
      } else {
        TurnSettles(After(s, turn[0]), turn[1..], sdk, id);
      }
    }
  }

  /** What a capture makes of it. */
  lemma {:induction false} CaptureSettles(s: Tools, reqs: seq<Request>, i: nat, id: CallId)
    requires s.batch.open && i < |reqs| && CaptureAll(s, reqs).1.Some?
    ensures |CaptureAll(s, reqs).1.value| == |reqs|
    ensures Keeps(s, reqs[i].sdk, id) ==> CaptureAll(s, reqs).1.value[i] == id
    ensures Splits(s, reqs[i].sdk, id) ==> CaptureAll(s, reqs).1.value[i] != id
    decreases |reqs|
  {
    hide Keeps, Splits, EnsureCall;
    var kind := EffectiveKind(s.client[reqs[0].tool], reqs[0].custom);
    EnsureSettlesNothing(s, reqs[0].sdk, kind, reqs[i].sdk, id);
    if i > 0 {
      CaptureSettles(EnsureCall(s, reqs[0].sdk, kind).0, reqs[1..], i - 1, id);
    } else if |reqs| > 1 {
      CaptureSettles(EnsureCall(s, reqs[0].sdk, kind).0, reqs[1..], 0, id);
    }
  }

  /**
   In a turn in which batches close at any moments, a model id streamed before is
   captured under its streamed id exactly if no batch closed while it held the id's
   call: a reservation survives a closing, a call does not.
   */
  lemma ClosingKeepsIdentityExactlyIf(s: Tools, turn: seq<TurnStep>, reqs: seq<Request>, i: nat)
    requires Inv(s)
    requires Capture(RunTurn(s, turn), reqs).1.Some? && i < |reqs| && reqs[i].sdk in s.streamed
    ensures |Capture(RunTurn(s, turn), reqs).1.value| == |reqs|
    ensures Capture(RunTurn(s, turn), reqs).1.value[i] == s.streamed[reqs[i].sdk] <==> !ClosesOver(s, turn, reqs[i].sdk)
  {
    var sdk, id, t := reqs[i].sdk, s.streamed[reqs[i].sdk], RunTurn(s, turn);
    assert Keeps(s, sdk, id);
    hide Inv, Keeps, Splits, ClosesOver, RunTurn, CaptureAll;
    TurnSettles(s, turn, sdk, id);
    OpeningSettlesNothing(t, sdk, id);
    CaptureSettles(WithOpenBatch(t), reqs, i, id);
  }

  /** A turn in which one does: the captured call differs from the streamed one. */
  lemma ClosingMidTurnSplitsIdentity()
    ensures var s := Tools(map["f" := Tool(false, Function, "f")], map[], Batch(true, map[], map[]), 0, map[]);
            var req := Request("call_1", "f", false, true);
            var t := Run(s, [Fragment(req), Invocation(req)]);
            var ids := Capture(BatchCloses(t), [req]).1;
            ids.Some? && req.sdk in t.streamed && ids.value[0] != t.streamed[req.sdk]
  {
    var s := Tools(map["f" := Tool(false, Function, "f")], map[], Batch(true, map[], map[]), 0, map[]);
    var req := Request("call_1", "f", false, true);
    var steps := [Fragment(req), Invocation(req)];
    var s1 := Next(s, steps[0]);
    assert s1.reserved == map["call_1" := 0];
    assert steps[1..] == [Invocation(req)] && steps[1..][1..] == [];
    var t := Next(s1, Invocation(req));
    assert Run(s1, steps[1..]) == t;
    assert t.streamed == map["call_1" := 0] && t.reserved == map[];
    assert [req][1..] == [];
    var closed := WithOpenBatch(BatchCloses(t));
    var again := EnsureCall(closed, "call_1", Function);
    assert again.1 == 1;
    assert CaptureAll(again.0, []) == (again.0, Some([]));
    assert [1] + [] == [1];
    assert CaptureAll(closed, [req]).1 == Some([1]) by {
      assert !Refused(closed, req) && [req][0] == req;
      assert EnsureCall(closed, req.sdk, EffectiveKind(closed.client[req.tool], req.custom)) == again;
    }
  }

  /** The output item of a call, as the fragments and the terminal response derive it. */
  datatype ItemId = FunctionItem(call: CallId) | CustomItem(call: CallId) | SearchItem(call: CallId)

  function ToolItemId(kind: ToolKind, call: CallId): ItemId {
    match kind
    case Function => FunctionItem(call)
    case Custom => CustomItem(call)
    case ToolSearch => SearchItem(call)
  }

  /** Fragments and captured call share an output item exactly if the final request is not typed custom. */
  lemma StreamedItemIsTerminalItem(s: Tools, fragment: Request, final: Request, call: CallId)
    requires Streamable(s, fragment) && final.tool == fragment.tool
    ensures ToolItemId(EffectiveKind(s.client[final.tool], final.custom), call) == ToolItemId(Function, call)
       <==> !final.custom
  {
  }

  /** The object itself, with the source's fields. */
  class RequestTools {
    const client: map<string, Tool>
    var reserved: map<SdkId, CallId>
    var batch: Batch
    var next: CallId
    ghost var streamed: map<SdkId, CallId>

    ghost function State(): Tools
      reads this
    {
      Tools(client, reserved, batch, next, streamed)
    }

    constructor (client: map<string, Tool>)
      ensures State() == Tools(client, map[], Batch(false, map[], map[]), 0, map[])
    {
      this.client := client;
      reserved, batch, next, streamed := map[], Batch(false, map[], map[]), 0, map[];
    }

    method ReserveStreamingCall(req: Request) returns (call: Option<CallId>)
      modifies this
      ensures (State(), call) == Reserve(old(State()), req)
    {
      if req.sdk == "" || req.tool == "" {
        return None;
      }
      if req.sdk in reserved {
        streamed := streamed[req.sdk := reserved[req.sdk]];
        return Some(reserved[req.sdk]);
      }
      if batch.open && req.sdk in batch.bySdk {
        return None;
      }
      if req.tool !in client || client[req.tool].strict {
        return None;
      }
      if EffectiveKind(client[req.tool], req.custom) != Function {
        return None;
      }
      call := Some(next);
      reserved := reserved[req.sdk := next];
      streamed := streamed[req.sdk := next];
      next := next + 1;
    }

    method EnsureBatchCall(sdk: SdkId, kind: ToolKind) returns (id: CallId)
      modifies this
      ensures (State(), id) == EnsureCall(old(State()), sdk, kind)
    {
      if sdk != "" && sdk in batch.bySdk {
        return batch.bySdk[sdk];
      }
      if sdk != "" && sdk in reserved {
        id := reserved[sdk];
      } else {
        id := next;
        next := next + 1;
      }
      reserved := reserved - {sdk};
      batch := batch.(kinds := batch.kinds[id := kind]);
      if sdk != "" {
        batch := batch.(bySdk := batch.bySdk[sdk := id]);
      }
    }

    method OpenBatch()
      modifies this
      ensures State() == WithOpenBatch(old(State()))
    {
      if !batch.open {
        batch := Batch(true, map[], map[]);
      }
    }

    method HandleInvocation(req: Request) returns (call: Option<CallId>)
      modifies this
      ensures (State(), call) == Invoke(old(State()), req)
    {
      OpenBatch();
      if req.tool !in client {
        return None;
      }
      if client[req.tool].strict && !req.conforms {
        return None;
      }
      var id := EnsureBatchCall(req.sdk, client[req.tool].kind);
      return Some(id);
    }

    method CaptureRequests(reqs: seq<Request>) returns (ids: Option<seq<CallId>>)
      modifies this
      ensures (State(), ids) == Capture(old(State()), reqs)
    {
      OpenBatch();
      var calls: seq<CallId> := [];
      ghost var start := State();
      ghost var all := CaptureAll(start, reqs);
      assert reqs[0..] == reqs;
      assert all.1.Some? ==> calls + all.1.value == all.1.value;
      for i := 0 to |reqs|
        invariant var (t, rest) := CaptureAll(State(), reqs[i..]);
                  all == (t, if rest.Some? then Some(calls + rest.value) else None)
      {
        assert reqs[i..][0] == reqs[i] && reqs[i..][1..] == reqs[i + 1..];
        if reqs[i].tool !in client {
          return None;
        }
        if client[reqs[i].tool].strict && !reqs[i].conforms {
          return None;
        }
        ghost var rest :=
          CaptureAll(EnsureCall(State(), reqs[i].sdk, EffectiveKind(client[reqs[i].tool], reqs[i].custom)).0,
                     reqs[i + 1..]).1;
        var id := EnsureBatchCall(reqs[i].sdk, EffectiveKind(client[reqs[i].tool], reqs[i].custom));
        if rest.Some? {
          assert calls + ([id] + rest.value) == (calls + [id]) + rest.value;
        }
        calls := calls + [id];
      }
      assert reqs[|reqs|..] == [];
      assert calls + [] == calls;
      reserved := map[];
      return Some(calls);
    }

    method Cancel()
      modifies this
      ensures State() == CancelCurrent(old(State()))
    {
      reserved := map[];
      batch := batch.(open := false);
    }
  }
}
