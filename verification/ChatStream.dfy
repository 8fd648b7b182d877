/**
 The Chat Completions stream (internal/httpapi/chat.go): deltas as they come, then
 one terminal reconciliation, for a writer that does not fail.
 */
module ChatStream {
  import opened Common
  import opened StreamReconcile

  datatype CallId = CallId(text: string)

  datatype ChatToolCall = ChatToolCall(id: CallId, name: string, arguments: string)

  datatype Turn = Turn(text: string, reasoning: string, calls: seq<ChatToolCall>)

  datatype Event =
    | ReasoningDelta(delta: string)
    | ContentDelta(delta: string)
    | ToolCallDelta(id: CallId, name: string, delta: string)
    | Result(turn: Option<Turn>)
    | TurnError
    | DeadlineExceeded
    | Cancelled

  datatype Identity = Identity(id: CallId, name: string)

  /** One entry of a chunk's tool calls; the identity is sent only where the call is new. */
  datatype ToolDelta = ToolDelta(index: nat, identity: Option<Identity>, arguments: string)

  datatype Chunk =
    | Role
    | Reasoning(text: string)
    | Content(text: string)
    | ToolCalls(deltas: seq<ToolDelta>)
    | Finish
    | Error
    | Done

  datatype Outcome = Completed | Failed | Abandoned

  // ---- The client's side -------------------------------------------------------

  /** A client opens the next index on an identity, and appends to an open index without one. */
  function Apply(calls: seq<ChatToolCall>, d: ToolDelta): Option<seq<ChatToolCall>> {
    if d.identity.Some? && d.index == |calls| then
      Some(calls + [ChatToolCall(d.identity.value.id, d.identity.value.name, d.arguments)])
    else if d.identity.None? && d.index < |calls| then
      Some(calls[d.index := calls[d.index].(arguments := calls[d.index].arguments + d.arguments)])
    else None
  }

  function ApplyAll(calls: seq<ChatToolCall>, deltas: seq<ToolDelta>): Option<seq<ChatToolCall>> {
    if deltas == [] then Some(calls)
    else
      var before := ApplyAll(calls, deltas[..|deltas| - 1]);
      if before.None? then None else Apply(before.value, deltas[|deltas| - 1])
  }

  /** What a client has put together: text, reasoning, and calls unless it was sent nonsense. */
  datatype View = View(text: string, reasoning: string, calls: Option<seq<ChatToolCall>>)

  function Seen(v: View, c: Chunk): View {
    match c
    case Reasoning(text) => v.(reasoning := v.reasoning + text)
    case Content(text) => v.(text := v.text + text)
    case ToolCalls(deltas) => v.(calls := if v.calls.None? then None else ApplyAll(v.calls.value, deltas))
    case _ => v
  }

  function Observed(chunks: seq<Chunk>): View {
    if chunks == [] then View("", "", Some([]))
    else Seen(Observed(chunks[..|chunks| - 1]), chunks[|chunks| - 1])
  }

  /** `v` is what these chunks add up to; stated by the views along the way, so that it need not be unfolded. */
  ghost predicate Sees(chunks: seq<Chunk>, v: View) {
    exists views: seq<View> :: Views(chunks, views) && views[|chunks|] == v
  }

  ghost predicate Views(chunks: seq<Chunk>, views: seq<View>) {
    && |views| == |chunks| + 1 && views[0] == View("", "", Some([]))
    && forall i {:trigger chunks[i]} :: 0 <= i < |chunks| ==> views[i + 1] == Seen(views[i], chunks[i])
  }

  lemma SeesNothing()
    ensures Sees([], View("", "", Some([])))
  {
    assert Views([], [View("", "", Some([]))]);
  }

  lemma SeesMore(chunks: seq<Chunk>, v: View, c: Chunk)
    requires Sees(chunks, v)
    ensures Sees(chunks + [c], Seen(v, c))
  {
    var views: seq<View> :| Views(chunks, views) && views[|chunks|] == v;
    var longer, grown := chunks + [c], views + [Seen(v, c)];
    forall i | 0 <= i < |longer| ensures grown[i + 1] == Seen(grown[i], longer[i]) {
      if i < |chunks| { assert longer[i] == chunks[i]; }
    }
    assert Views(longer, grown);
  }

  lemma {:induction false} ViewsAreObserved(chunks: seq<Chunk>, views: seq<View>)
    requires Views(chunks, views)
    ensures views[|chunks|] == Observed(chunks)
  {
    if chunks != [] {
      var n := |chunks| - 1;
      forall i | 0 <= i < n ensures views[..n + 1][i + 1] == Seen(views[..n + 1][i], chunks[..n][i]) {
        assert chunks[..n][i] == chunks[i];
      }
      ViewsAreObserved(chunks[..n], views[..n + 1]);
      assert views[n + 1] == Seen(views[n], chunks[n]);
    }
  }

  lemma SeesIsObserved(chunks: seq<Chunk>, v: View)
    requires Sees(chunks, v)
    ensures Observed(chunks) == v
  {
    var views: seq<View> :| Views(chunks, views) && views[|chunks|] == v;
    ViewsAreObserved(chunks, views);
  }

  /** The deltas take the client from `calls` to `after`; stated by the states along the way. */
  ghost predicate Leads(calls: seq<ChatToolCall>, deltas: seq<ToolDelta>, after: seq<ChatToolCall>) {
    exists states: seq<seq<ChatToolCall>> :: States(calls, deltas, states) && states[|deltas|] == after
  }

  ghost predicate States(calls: seq<ChatToolCall>, deltas: seq<ToolDelta>, states: seq<seq<ChatToolCall>>) {
    && |states| == |deltas| + 1 && states[0] == calls
    && forall i {:trigger deltas[i]} :: 0 <= i < |deltas| ==> Apply(states[i], deltas[i]) == Some(states[i + 1])
  }

  lemma LeadsNowhere(calls: seq<ChatToolCall>)
    ensures Leads(calls, [], calls)
  {
    assert States(calls, [], [calls]);
  }

  lemma LeadsOn(calls: seq<ChatToolCall>, deltas: seq<ToolDelta>, before: seq<ChatToolCall>, d: ToolDelta,
                after: seq<ChatToolCall>)
    requires Leads(calls, deltas, before) && Apply(before, d) == Some(after)
    ensures Leads(calls, deltas + [d], after)
  {
    var states: seq<seq<ChatToolCall>> :| States(calls, deltas, states) && states[|deltas|] == before;
    var longer, grown := deltas + [d], states + [after];
    forall i | 0 <= i < |longer| ensures Apply(grown[i], longer[i]) == Some(grown[i + 1]) {
      if i < |deltas| { assert longer[i] == deltas[i]; }
    }
    assert States(calls, longer, grown);
  }

  lemma {:induction false} StatesApply(calls: seq<ChatToolCall>, deltas: seq<ToolDelta>, states: seq<seq<ChatToolCall>>)
    requires States(calls, deltas, states)
    ensures ApplyAll(calls, deltas) == Some(states[|deltas|])
  {
    if deltas != [] {
      var n := |deltas| - 1;
      forall i | 0 <= i < n ensures Apply(states[..n + 1][i], deltas[..n][i]) == Some(states[..n + 1][i + 1]) {
        assert deltas[..n][i] == deltas[i];
      }
      StatesApply(calls, deltas[..n], states[..n + 1]);
      assert Apply(states[n], deltas[n]) == Some(states[n + 1]);
    }
  }

  lemma LeadsIsApplyAll(calls: seq<ChatToolCall>, deltas: seq<ToolDelta>, after: seq<ChatToolCall>)
    requires Leads(calls, deltas, after)
    ensures ApplyAll(calls, deltas) == Some(after)
  {
    var states: seq<seq<ChatToolCall>> :| States(calls, deltas, states) && states[|deltas|] == after;
    StatesApply(calls, deltas, states);
  }

  lemma ApplyOne(calls: seq<ChatToolCall>, d: ToolDelta)
    ensures ApplyAll(calls, [d]) == Apply(calls, d)
  {
    assert [d][..0] == [];
  }

  // ---- What the writer remembers of the calls -----------------------------------

  function Delivered(streamed: map<CallId, string>, id: CallId): string {
    if id in streamed then streamed[id] else ""
  }

  predicate NoRepeats(order: seq<CallId>) {
    forall i, j :: 0 <= i < j < |order| ==> order[i] != order[j]
  }

  /** A call keeps the name of its first fragment. */
  function Named(names: map<CallId, string>, id: CallId, name: string): map<CallId, string> {
    if id in names then names else names[id := name]
  }

  /** Index by index, the client holds the calls, names and fragments the writer remembers. */
  ghost predicate Remembers(order: seq<CallId>, streamed: map<CallId, string>, names: map<CallId, string>,
                            calls: seq<ChatToolCall>)
  {
    && NoRepeats(order) && |calls| == |order| && names.Keys == streamed.Keys
    && (forall i :: 0 <= i < |order| ==> order[i] in streamed && Streams(streamed, names, order[i], calls[i]))
    && forall id :: id in streamed ==> id in order
  }

  predicate Streams(streamed: map<CallId, string>, names: map<CallId, string>, id: CallId, held: ChatToolCall) {
    && id in streamed && id in names
    && held == ChatToolCall(id, names[id], streamed[id])
  }

  /** The call's finished arguments extend, or mean the same as, what was streamed of it. */
  predicate Reconcilable(decode: Decoder, streamed: map<CallId, string>, call: ChatToolCall) {
    var sent := Delivered(streamed, call.id);
    sent <= call.arguments || SameJsonValue(decode, call.arguments, sent)
  }

  /** The first `n` calls by id. */
  function CallsBefore(calls: seq<ChatToolCall>, n: nat): map<CallId, ChatToolCall>
    requires n <= |calls|
  {
    if n == 0 then map[] else CallsBefore(calls, n - 1)[calls[n - 1].id := calls[n - 1]]
  }

  predicate DistinctCalls(calls: seq<ChatToolCall>) {
    forall i, j :: 0 <= i < j < |calls| ==> calls[i].id != calls[j].id
  }

  /** The name a call goes by at the client: its first fragment's, or else the turn's. */
  function NameOwed(names: map<CallId, string>, id: CallId, call: ChatToolCall): string {
    if id in names then names[id] else call.name
  }

  /** The client holds this call, under the name it was given first, with its arguments. */
  predicate Holds(decode: Decoder, names: map<CallId, string>, client: seq<ChatToolCall>, call: ChatToolCall) {
    exists i :: 0 <= i < |client| && client[i].id == call.id && client[i].name == NameOwed(names, call.id, call)
                && Carries(decode, call.arguments, client[i].arguments)
  }

  /** The writer's order is the client's. */
  ghost predicate Aligned(order: seq<CallId>, client: seq<ChatToolCall>) {
    && NoRepeats(order) && |client| == |order|
    && forall i :: 0 <= i < |order| ==> client[i].id == order[i]
  }

  /** A settled call has its terminal arguments; any other is as it was streamed. */
  predicate AsOwed(decode: Decoder, streamed: map<CallId, string>, names: map<CallId, string>,
                   settled: map<CallId, ChatToolCall>, id: CallId, held: ChatToolCall)
  {
    if id in settled then
      held.name == NameOwed(names, id, settled[id]) && Carries(decode, settled[id].arguments, held.arguments)
    else
      Streams(streamed, names, id, held)
  }

  /** Half-way through the terminal calls, some settled, the others as streamed. */
  ghost predicate Settling(decode: Decoder, order: seq<CallId>, streamed: map<CallId, string>,
                           names: map<CallId, string>, settled: map<CallId, ChatToolCall>, client: seq<ChatToolCall>)
  {
    && Aligned(order, client)
    && (forall i :: 0 <= i < |order| ==> AsOwed(decode, streamed, names, settled, order[i], client[i]))
    && forall id :: id in streamed || id in names || id in settled ==> id in order
  }

  lemma {:induction false} NotBefore(calls: seq<ChatToolCall>, k: nat, n: nat)
    requires DistinctCalls(calls) && k <= n < |calls|
    ensures calls[n].id !in CallsBefore(calls, k)
  {
    if k > 0 { NotBefore(calls, k - 1, n); }
  }

  lemma {:induction false} EachCallById(calls: seq<ChatToolCall>, n: nat, j: nat)
    requires DistinctCalls(calls) && j < n <= |calls|
    ensures calls[j].id in CallsBefore(calls, n) && CallsBefore(calls, n)[calls[j].id] == calls[j]
  {
    if j < n - 1 { EachCallById(calls, n - 1, j); }
  }

  class ToolCallStreams {
    var order: seq<CallId>
    var streamed: map<CallId, string>
    ghost var names: map<CallId, string>

    constructor ()
      ensures order == [] && streamed == map[] && names == map[]
    {
      order, streamed, names := [], map[], map[];
    }

    /** The call's index, and whether this is its first sight. */
    method Index(id: CallId) returns (index: nat, first: bool)
      modifies `order
      ensures first <==> id !in old(order)
      ensures order == if first then old(order) + [id] else old(order)
      ensures index < |order| && order[index] == id
      ensures first ==> index == |old(order)|
    {
      for i := 0 to |order|
        invariant order == old(order) && forall j :: 0 <= j < i ==> order[j] != id
      {
        if order[i] == id {
          return i, false;
        }
      }
      order := order + [id];
      return |order| - 1, true;
    }

    method Record(id: CallId, delta: string)
      modifies `streamed
      ensures streamed == old(streamed)[id := Delivered(old(streamed), id) + delta]
    {
      streamed := streamed[id := (if id in streamed then streamed[id] else "") + delta];
    }

    /** One fragment; the identity goes out with the first. */
    method FragmentDelta(id: CallId, name: string, delta: string, ghost client: seq<ChatToolCall>)
      returns (d: ToolDelta, ghost after: seq<ChatToolCall>)
      requires Remembers(order, streamed, names, client)
      modifies this
      ensures Apply(client, d) == Some(after) && Remembers(order, streamed, names, after)
      ensures streamed == old(streamed)[id := Delivered(old(streamed), id) + delta]
      ensures names == Named(old(names), id, name)
    {
      var index, first := Index(id);
      d := ToolDelta(index, if first then Some(Identity(id, name)) else None, delta);
      Record(id, delta);
      names := Named(names, id, name);
      after := Apply(client, d).value;
      if first { assert "" + delta == delta; }
    }

    /** What one terminal call adds, unless it contradicts its fragments. */
    method TerminalDelta(decode: Decoder, call: ChatToolCall, ghost settled: map<CallId, ChatToolCall>,
                         ghost client: seq<ChatToolCall>)
      returns (ok: bool, delta: Option<ToolDelta>, ghost after: seq<ChatToolCall>)
      requires call.id !in settled && Settling(decode, order, streamed, names, settled, client)
      modifies `order
      ensures ok <==> Reconcilable(decode, streamed, call)
      ensures ok && delta.None? ==> after == client
      ensures ok && delta.Some? ==> Apply(client, delta.value) == Some(after)
      ensures ok ==> Settling(decode, order, streamed, names, settled[call.id := call], after)
    {
      var index, first := Index(call.id);
      var suffix := ToolArgumentsSuffix(decode, call.arguments, if call.id in streamed then streamed[call.id] else "");
      after := client;
      if suffix.Mismatch? {
        return false, None, after;
      }
      ok := true;
      ghost var sent := Delivered(streamed, call.id);
      if !first && suffix.text == "" {
        delta := None;
        assert sent + suffix.text == sent;
      } else {
        delta := Some(ToolDelta(index, if first then Some(Identity(call.id, call.name)) else None, suffix.text));
        after := Apply(client, delta.value).value;
        if first { assert sent + suffix.text == suffix.text; }
      }
      Settles(decode, old(order), order, streamed, names, settled, client, after, index, call);
    }
  }

  /** One call settled; the others untouched. */
  lemma Settles(decode: Decoder, known: seq<CallId>, order: seq<CallId>, streamed: map<CallId, string>,
                names: map<CallId, string>, settled: map<CallId, ChatToolCall>,
                client: seq<ChatToolCall>, after: seq<ChatToolCall>, index: nat, call: ChatToolCall)
    requires Settling(decode, known, streamed, names, settled, client)
    requires index < |order| == |after| && order[index] == call.id == after[index].id
    requires order == (if call.id in known then known else known + [call.id])
    requires forall i :: 0 <= i < |client| && i != index ==> after[i] == client[i]
    requires after[index].name == NameOwed(names, call.id, call)
      && Carries(decode, call.arguments, after[index].arguments)
    ensures Settling(decode, order, streamed, names, settled[call.id := call], after)
  {
    AlignsStill(known, order, client, after, index, call.id);
    var more := settled[call.id := call];
    assert AsOwed(decode, streamed, names, more, call.id, after[index]);
    forall id, held | id != call.id
      ensures AsOwed(decode, streamed, names, more, id, held) == AsOwed(decode, streamed, names, settled, id, held) {
    }
    hide AsOwed, NameOwed;
    forall i | 0 <= i < |order| ensures AsOwed(decode, streamed, names, more, order[i], after[i]) {
      if i != index {
        assert order[i] == known[i] && after[i] == client[i] && order[i] != order[index];
        assert AsOwed(decode, streamed, names, settled, known[i], client[i]);
      }
    }
  }

  lemma AlignsStill(known: seq<CallId>, order: seq<CallId>, client: seq<ChatToolCall>, after: seq<ChatToolCall>,
                    index: nat, id: CallId)
    requires Aligned(known, client) && index < |order| == |after| && order[index] == id == after[index].id
    requires order == (if id in known then known else known + [id])
    requires forall i :: 0 <= i < |client| && i != index ==> after[i] == client[i]
    ensures Aligned(order, after)
  {
    forall i, j | 0 <= i < j < |order| ensures order[i] != order[j] {
      if j < |known| { assert known[i] != known[j]; }
    }
    forall i | 0 <= i < |order| ensures after[i].id == order[i] {
      if i != index { assert order[i] == known[i]; }
    }
  }

  /** A turn's calls agree with their fragments, and every call streamed is among them. */
  predicate CallsReconcile(decode: Decoder, streamed: map<CallId, string>, calls: seq<ChatToolCall>) {
    && (forall i :: 0 <= i < |calls| ==> Reconcilable(decode, streamed, calls[i]))
    && forall id :: id in streamed ==> id in CallsBefore(calls, |calls|)
  }

  /** The client ends up with exactly the turn's calls, each once, with its name and arguments. */
  ghost predicate HoldsExactly(decode: Decoder, names: map<CallId, string>, client: seq<ChatToolCall>,
                               calls: seq<ChatToolCall>)
  {
    && DistinctCalls(client)
    && (forall j :: 0 <= j < |calls| ==> Holds(decode, names, client, calls[j]))
    && forall i :: 0 <= i < |client| ==> client[i].id in CallsBefore(calls, |calls|)
  }

  lemma SettledHoldsExactly(decode: Decoder, order: seq<CallId>, streamed: map<CallId, string>,
                            names: map<CallId, string>, calls: seq<ChatToolCall>, client: seq<ChatToolCall>)
    requires DistinctCalls(calls) && Settling(decode, order, streamed, names, CallsBefore(calls, |calls|), client)
    requires forall id :: id in streamed ==> id in CallsBefore(calls, |calls|)
    ensures HoldsExactly(decode, names, client, calls)
  {
    forall i, j | 0 <= i < j < |client| ensures client[i].id != client[j].id {
      assert order[i] != order[j];
    }
    forall i | 0 <= i < |client| ensures client[i].id in CallsBefore(calls, |calls|) {
      assert AsOwed(decode, streamed, names, CallsBefore(calls, |calls|), order[i], client[i]);
    }
    forall j | 0 <= j < |calls| ensures Holds(decode, names, client, calls[j]) {
      EachCallById(calls, |calls|, j);
      var i :| 0 <= i < |order| && order[i] == calls[j].id;
      assert AsOwed(decode, streamed, names, CallsBefore(calls, |calls|), order[i], client[i]);
    }
  }

  /** What the client is still owed for the turn's calls; an error if they contradict the fragments. */
  method TerminalDeltas(streams: ToolCallStreams, decode: Decoder, calls: seq<ChatToolCall>,
                        ghost client: seq<ChatToolCall>)
    returns (ok: bool, deltas: seq<ToolDelta>, ghost after: seq<ChatToolCall>)
    requires DistinctCalls(calls) && Remembers(streams.order, streams.streamed, streams.names, client)
    modifies streams
    ensures ok <==> CallsReconcile(decode, old(streams.streamed), calls)
    ensures ok ==> ApplyAll(client, deltas) == Some(after) && HoldsExactly(decode, old(streams.names), after, calls)
  {
    ok, deltas, after := SettleCalls(streams, decode, calls, client);
    if ok {
      ok := EveryStreamedCallReturned(streams.streamed, calls);
      if ok {
        LeadsIsApplyAll(client, deltas, after);
        SettledHoldsExactly(decode, streams.order, streams.streamed, streams.names, calls, after);
      }
    }
  }

  method SettleCalls(streams: ToolCallStreams, decode: Decoder, calls: seq<ChatToolCall>,
                     ghost client: seq<ChatToolCall>)
    returns (ok: bool, deltas: seq<ToolDelta>, ghost after: seq<ChatToolCall>)
    requires DistinctCalls(calls) && Remembers(streams.order, streams.streamed, streams.names, client)
    modifies streams
    ensures streams.streamed == old(streams.streamed) && streams.names == old(streams.names)
    ensures ok <==> forall i :: 0 <= i < |calls| ==> Reconcilable(decode, streams.streamed, calls[i])
    ensures ok ==> Leads(client, deltas, after)
    ensures ok ==> Settling(decode, streams.order, streams.streamed, streams.names, CallsBefore(calls, |calls|), after)
  {
    deltas, after := [], client;
    LeadsNowhere(client);
    StartsSettling(decode, streams.order, streams.streamed, streams.names, client);
    for n := 0 to |calls|
      invariant streams.streamed == old(streams.streamed) && streams.names == old(streams.names)
      invariant Settling(decode, streams.order, streams.streamed, streams.names, CallsBefore(calls, n), after)
      invariant Leads(client, deltas, after)
      invariant forall i :: 0 <= i < n ==> Reconcilable(decode, streams.streamed, calls[i])
    {
      var delta;
      NotBefore(calls, n, n);
      ghost var before := after;
      ok, delta, after := streams.TerminalDelta(decode, calls[n], CallsBefore(calls, n), before);
      if !ok {
        return;
      }
      if delta.Some? {
        LeadsOn(client, deltas, before, delta.value, after);
        deltas := deltas + [delta.value];
      }
    }
    ok := true;
  }

  lemma StartsSettling(decode: Decoder, order: seq<CallId>, streamed: map<CallId, string>, names: map<CallId, string>,
                       client: seq<ChatToolCall>)
    requires Remembers(order, streamed, names, client)
    ensures Settling(decode, order, streamed, names, map[], client)
  {
  }

  /** A call streamed but missing from the turn is one the client could never answer. */
  method EveryStreamedCallReturned(streamed: map<CallId, string>, calls: seq<ChatToolCall>) returns (ok: bool)
    ensures ok <==> forall id :: id in streamed ==> id in CallsBefore(calls, |calls|)
  {
    var delivered: set<CallId> := {};
    for n := 0 to |calls|
      invariant delivered == CallsBefore(calls, n).Keys
    {
      delivered := delivered + {calls[n].id};
    }
    ok := streamed.Keys <= delivered;
  }

  // ---- The stream --------------------------------------------------------------

  /** What a sequence of deltas adds up to; of each call its arguments, and the name of its first fragment. */
  datatype Streamed = Streamed(text: string, reasoning: string, fragments: map<CallId, string>,
                               names: map<CallId, string>)

  function NoDeltas(): Streamed {
    Streamed("", "", map[], map[])
  }

  /** A fragment without text or without a call is no fragment. */
  function Gather(g: Streamed, e: Event): Streamed {
    match e
    case ContentDelta(delta) => g.(text := g.text + delta)
    case ReasoningDelta(delta) => g.(reasoning := g.reasoning + delta)
    case ToolCallDelta(id, name, delta) =>
      if id.text == "" || delta == "" then g
      else g.(fragments := g.fragments[id := Delivered(g.fragments, id) + delta], names := Named(g.names, id, name))
    case _ => g
  }

  /** What the first `n` events add up to. */
  function Gathered(events: seq<Event>, n: nat): Streamed
    requires n <= |events|
  {
    if n == 0 then NoDeltas() else Gather(Gathered(events, n - 1), events[n - 1])
  }

  predicate IsFragment(e: Event, id: CallId) {
    e.ToolCallDelta? && e.id == id && id.text != "" && e.delta != ""
  }

  /** The name gathered is the one its first fragment gave, whatever later ones say. */
  lemma {:induction false} FirstFragmentNames(events: seq<Event>, n: nat, i: nat, id: CallId)
    requires i < n <= |events| && IsFragment(events[i], id) && forall j :: 0 <= j < i ==> !IsFragment(events[j], id)
    ensures id in Gathered(events, n).names && Gathered(events, n).names[id] == events[i].name
  {
    if i < n - 1 {
      FirstFragmentNames(events, n - 1, i, id);
    } else {
      UnnamedWithoutFragment(events, i, id);
    }
  }

  lemma {:induction false} UnnamedWithoutFragment(events: seq<Event>, n: nat, id: CallId)
    requires n <= |events| && forall j :: 0 <= j < n ==> !IsFragment(events[j], id)
    ensures id !in Gathered(events, n).names
  {
    if n > 0 {
      UnnamedWithoutFragment(events, n - 1, id);
      assert !IsFragment(events[n - 1], id);
    }
  }

  /** The turn extends everything that was streamed of it. */
  predicate Extends(decode: Decoder, turn: Turn, streamed: Streamed) {
    && streamed.reasoning <= turn.reasoning
    && streamed.text <= turn.text
    && CallsReconcile(decode, streamed.fragments, turn.calls)
  }

  predicate Delta(e: Event) {
    e.ReasoningDelta? || e.ContentDelta? || e.ToolCallDelta?
  }

  predicate HasResult(events: seq<Event>, i: nat) {
    i < |events| && events[i].Result? && events[i].turn.Some?
  }

  predicate EndsInFinish(chunks: seq<Chunk>) {
    |chunks| >= 2 && chunks[|chunks| - 2] == Finish && chunks[|chunks| - 1] == Done
  }

  predicate EndsInError(chunks: seq<Chunk>) {
    |chunks| >= 2 && chunks[|chunks| - 2] == Error && chunks[|chunks| - 1] == Done
  }

  class ChatWriter {
    const decode: Decoder
    const emitReasoning: bool
    var chunks: seq<Chunk>
    var streamedText: string
    var streamedReasoning: string
    const toolCalls: ToolCallStreams
    ghost var client: seq<ChatToolCall>

    ghost function Holding(): View
      reads this
    {
      View(streamedText, if emitReasoning then streamedReasoning else "", Some(client))
    }

    /** The client has seen these chunks, and holds the streamed text, reasoning and calls. */
    ghost predicate Valid()
      reads this, toolCalls
    {
      && Sees(chunks, Holding())
      && Remembers(toolCalls.order, toolCalls.streamed, toolCalls.names, client)
    }

    constructor (decode: Decoder, emitReasoning: bool)
      ensures Valid() && fresh(toolCalls) && this.decode == decode && this.emitReasoning == emitReasoning
      ensures Buffers() == NoDeltas()
    {
      this.decode, this.emitReasoning := decode, emitReasoning;
      chunks, streamedText, streamedReasoning, client := [], "", "", [];
      toolCalls := new ToolCallStreams();
      new;
      SeesNothing();
      Write(Role, View("", "", Some([])));
    }

    method Write(c: Chunk, ghost v: View)
      requires Sees(chunks, v)
      modifies `chunks
      ensures chunks == old(chunks) + [c] && Sees(chunks, Seen(v, c))
    {
      SeesMore(chunks, v, c);
      chunks := chunks + [c];
    }

    method WriteReasoning(delta: string)
      requires Valid()
      modifies `chunks, `streamedReasoning
      ensures Valid() && streamedReasoning == old(streamedReasoning) + delta
    {
      if delta != "" && emitReasoning {
        Write(Reasoning(delta), Holding());
      }
      if delta == "" { assert streamedReasoning + delta == streamedReasoning; }
      streamedReasoning := streamedReasoning + delta;
    }

    method WriteContent(delta: string)
      requires Valid()
      modifies `chunks, `streamedText
      ensures Valid() && streamedText == old(streamedText) + delta
    {
      Write(Content(delta), Holding());
      streamedText := streamedText + delta;
    }

    method WriteToolCallDelta(id: CallId, name: string, delta: string)
      requires Valid()
      modifies `chunks, `client, toolCalls
      ensures Valid()
      ensures toolCalls.streamed == if id.text == "" || delta == "" then old(toolCalls.streamed)
                                    else old(toolCalls.streamed)[id := Delivered(old(toolCalls.streamed), id) + delta]
      ensures toolCalls.names == if id.text == "" || delta == "" then old(toolCalls.names)
                                 else Named(old(toolCalls.names), id, name)
    {
      if id.text == "" || delta == "" {
        return;
      }
      var d;
      ghost var after;
      d, after := toolCalls.FragmentDelta(id, name, delta, client);
      ApplyOne(client, d);
      WriteToolCalls([d], after);
    }

    method OnDelta(e: Event)
      requires Valid() && Delta(e)
      modifies this, toolCalls
      ensures Valid() && Buffers() == Gather(old(Buffers()), e)
    {
      if e.ReasoningDelta? {
        WriteReasoning(e.delta);
      } else if e.ContentDelta? {
        WriteContent(e.delta);
      } else {
        WriteToolCallDelta(e.id, e.name, e.delta);
      }
    }

    /** Forwards deltas until something else arrives. */
    method ReadDeltas(events: seq<Event>) returns (used: nat)
      requires Valid() && Buffers() == NoDeltas()
      modifies this, toolCalls
      ensures Valid() && used <= |events| && Buffers() == Gathered(events, used)
      ensures forall i :: 0 <= i < used ==> Delta(events[i])
      ensures used < |events| ==> !Delta(events[used])
    {
      hide Valid, Gather;
      used := 0;
      ghost var gathered := Buffers();
      while used < |events| && Delta(events[used])
        invariant used <= |events| && Valid() && Buffers() == gathered == Gathered(events, used)
        invariant forall i :: 0 <= i < used ==> Delta(events[i])
      {
        OnDelta(events[used]);
        gathered := Gather(gathered, events[used]);
        used := used + 1;
      }
    }

    ghost function Buffers(): Streamed
      reads this, toolCalls
    {
      Streamed(streamedText, streamedReasoning, toolCalls.streamed, toolCalls.names)
    }

    method WriteFailure()
      modifies `chunks
      ensures EndsInError(chunks)
    {
      chunks := chunks + [Error];
      chunks := chunks + [Done];
    }

    /** The turn's result: complete what was streamed, or fail if the turn contradicts it. */
    method OnResult(turn: Turn) returns (outcome: Outcome)
      requires Valid() && DistinctCalls(turn.calls)
      modifies this, toolCalls
      ensures outcome == if Extends(decode, turn, old(Buffers())) then Completed else Failed
      ensures outcome.Completed? ==> Told(decode, emitReasoning, chunks, turn, old(toolCalls.names))
      ensures outcome.Failed? ==> EndsInError(chunks)
    {
      var ok := CompleteReasoning(turn.reasoning);
      if ok {
        ok := CompleteText(turn.text);
        if ok {
          ok := CompleteCalls(turn.calls);
          if ok {
            WriteEnd(turn, old(toolCalls.names));
            return Completed;
          }
        }
      }
      WriteFailure();
      outcome := Failed;
    }

    method WriteEnd(turn: Turn, ghost names: map<CallId, string>)
      requires Sees(chunks, Holding()) && streamedText == turn.text && streamedReasoning == turn.reasoning
      requires HoldsExactly(decode, names, client, turn.calls)
      modifies `chunks
      ensures Told(decode, emitReasoning, chunks, turn, names)
    {
      Write(Finish, Holding());
      Write(Done, Holding());
      SeesIsObserved(chunks, Holding());
    }

    method CompleteReasoning(terminal: string) returns (ok: bool)
      requires Valid()
      modifies `chunks, `streamedReasoning
      ensures ok <==> old(streamedReasoning) <= terminal
      ensures ok ==> Valid() && streamedReasoning == terminal
    {
      var suffix := TerminalStreamSuffix(terminal, streamedReasoning);
      if suffix.Mismatch? {
        return false;
      }
      WriteReasoning(suffix.text);
      ok := true;
    }

    method CompleteText(terminal: string) returns (ok: bool)
      requires Valid()
      modifies `chunks, `streamedText
      ensures ok <==> old(streamedText) <= terminal
      ensures ok ==> Valid() && streamedText == terminal
    {
      var suffix := TerminalStreamSuffix(terminal, streamedText);
      if suffix.Mismatch? {
        return false;
      }
      if suffix.text != "" {
        WriteContent(suffix.text);
      } else {
        assert streamedText + suffix.text == streamedText;
      }
      ok := true;
    }

    method CompleteCalls(calls: seq<ChatToolCall>) returns (ok: bool)
      requires Valid() && DistinctCalls(calls)
      modifies `chunks, `client, toolCalls
      ensures ok <==> CallsReconcile(decode, old(toolCalls.streamed), calls)
      ensures ok ==> HoldsExactly(decode, old(toolCalls.names), client, calls)
      ensures ok ==> Sees(chunks, Holding())
    {
      var deltas;
      ghost var after;
      ok, deltas, after := TerminalDeltas(toolCalls, decode, calls, client);
      if ok {
        WriteToolCalls(deltas, after);
      }
    }

    method WriteToolCalls(deltas: seq<ToolDelta>, ghost after: seq<ChatToolCall>)
      requires Sees(chunks, Holding()) && ApplyAll(client, deltas) == Some(after)
      modifies `chunks, `client
      ensures Sees(chunks, Holding()) && client == after
    {
      if |deltas| > 0 {
        Write(ToolCalls(deltas), Holding());
      }
      client := after;
    }
  }

  /**
   The client holds the turn: its text, its reasoning if shown, and exactly its calls,
   each under the name it was first given.
   */
  ghost predicate Told(decode: Decoder, emitReasoning: bool, chunks: seq<Chunk>, turn: Turn, names: map<CallId, string>)
  {
    var v := Observed(chunks);
    && v.text == turn.text
    && v.reasoning == (if emitReasoning then turn.reasoning else "")
    && v.calls.Some? && HoldsExactly(decode, names, v.calls.value, turn.calls)
    && EndsInFinish(chunks)
  }

  /**
   One turn's events turned into one chat stream. It completes exactly if a result
   arrives that extends everything streamed, and then the client holds that result.
   */
  method StreamChatEvents(events: seq<Event>, decode: Decoder, emitReasoning: bool)
    returns (chunks: seq<Chunk>, outcome: Outcome, used: nat)
    requires forall i :: 0 <= i < |events| && HasResult(events, i) ==> DistinctCalls(events[i].turn.value.calls)
    ensures used <= |events| && forall i :: 0 <= i < used ==> Delta(events[i])
    ensures used < |events| ==> !Delta(events[used])
    ensures outcome.Completed? <==>
      HasResult(events, used) && Extends(decode, events[used].turn.value, Gathered(events, used))
    ensures outcome.Completed? ==>
      Told(decode, emitReasoning, chunks, events[used].turn.value, Gathered(events, used).names)
    ensures outcome.Abandoned? <==> used < |events| && events[used].Cancelled?
    ensures outcome.Failed? ==> EndsInError(chunks)
  {
    var w := new ChatWriter(decode, emitReasoning);
    used := w.ReadDeltas(events);
    if used < |events| && events[used].Cancelled? {
      chunks, outcome := w.chunks, Abandoned;
    } else if HasResult(events, used) {
      outcome := w.OnResult(events[used].turn.value);
      chunks := w.chunks;
    } else {
      w.WriteFailure();
      chunks, outcome := w.chunks, Failed;
    }
  }
}
