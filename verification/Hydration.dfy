/**
 Messages become the session events a cold session is resumed from
 (internal/hydration/hydration.go, buildChatHistoryMessages), and a chain of stored
 responses is hydrated that way (internal/copilotgw/response_hydration.go).
 */
module Hydration {
  import opened Common
  import opened ResponseHistory

  /** A tool request: the call, with its arguments decoded. */
  datatype Data =
    | SessionStart
    | UserSaid(content: seq<Part>)
    | TurnStart(turn: nat)
    | AssistantSaid(content: seq<Part>, reasoning: seq<string>, requests: seq<Call>)
    | TurnEnd(turn: nat)
    | ToolStart(call: Call)
    | ToolComplete(callId: CallId, output: string)

  datatype Event = Event(id: nat, parent: Option<nat>, timestamp: int, data: Data)

  // ---- The specification --------------------------------------------------------------

  /** No arguments at all decode to the empty object. */
  function Decoded(arguments: Arguments): Arguments {
    if arguments.NoArguments? then JsonValue("{}") else arguments
  }

  function DecodedCall(call: Call): Call {
    Call(call.id, call.name, Decoded(call.arguments))
  }

  function DecodedCalls(calls: seq<Call>, n: nat): (r: seq<Call>)
    requires n <= |calls|
    ensures |r| == n && forall i :: 0 <= i < n ==> r[i] == DecodedCall(calls[i])
  {
    if n == 0 then [] else DecodedCalls(calls, n - 1) + [DecodedCall(calls[n - 1])]
  }

  /** The definitions by call id; a later call takes the id over. */
  function Define(defs: map<CallId, Call>, calls: seq<Call>, n: nat): map<CallId, Call>
    requires n <= |calls|
  {
    if n == 0 then defs else Define(defs, calls, n - 1)[calls[n - 1].id := calls[n - 1]]
  }

  function CallsOf(message: Message): seq<Call> {
    if message.AssistantMessage? then message.calls else []
  }

  function Defs(messages: seq<Message>, n: nat): map<CallId, Call>
    requires n <= |messages|
  {
    if n == 0 then map[] else Define(Defs(messages, n - 1), CallsOf(messages[n - 1]), |CallsOf(messages[n - 1])|)
  }

  function Turns(messages: seq<Message>, n: nat): nat
    requires n <= |messages|
  {
    if n == 0 then 0 else Turns(messages, n - 1) + if messages[n - 1].AssistantMessage? then 1 else 0
  }

  function DataFor(message: Message, turn: nat, defs: map<CallId, Call>): seq<Data> {
    match message
    case UserMessage(content) => [UserSaid(content)]
    case AssistantMessage(content, reasoning, calls) =>
      [TurnStart(turn), AssistantSaid(content, reasoning, DecodedCalls(calls, |calls|)), TurnEnd(turn)]
    case ToolMessage(id, output) =>
      if id in defs then [ToolStart(Call(id, defs[id].name, Decoded(defs[id].arguments))), ToolComplete(id, output)]
      else []
    case OtherMessage(_) => []
  }

  function DataOf(messages: seq<Message>, n: nat): seq<Data>
    requires n <= |messages|
  {
    if n == 0 then [SessionStart]
    else DataOf(messages, n - 1) + DataFor(messages[n - 1], Turns(messages, n - 1), Defs(messages, n - 1))
  }

  // ---- The builder ---------------------------------------------------------------------

  function Datas(events: seq<Event>): seq<Data> {
    if events == [] then [] else Datas(events[..|events| - 1]) + [events[|events| - 1].data]
  }

  /** The id an event at this position has as its parent: that of the event before it. */
  function ParentAt(events: seq<Event>, i: nat): Option<nat>
    requires i <= |events|
  {
    if i == 0 then None else Some(events[i - 1].id)
  }

  ghost predicate Parented(events: seq<Event>) {
    forall i :: 0 <= i < |events| ==> events[i].parent == ParentAt(events, i)
  }

  /** One chain of parents from the first event on, a millisecond apart, no id twice. */
  ghost predicate Chained(events: seq<Event>, now: int) {
    && Parented(events)
    && (forall i :: 0 <= i < |events| ==> events[i].timestamp == now + i)
    && (forall i, j :: 0 <= i < j < |events| ==> events[i].id != events[j].id)
  }

  lemma ParentedOn(events: seq<Event>, e: Event)
    requires Parented(events) && e.parent == ParentAt(events, |events|)
    ensures Parented(events + [e])
  {
    var all := events + [e];
    forall i | 0 <= i < |all| ensures all[i].parent == ParentAt(all, i) {
      if i < |events| {
        assert all[i] == events[i] && events[i].parent == ParentAt(events, i);
      }
    }
  }

  lemma ChainedOn(events: seq<Event>, e: Event, now: int)
    requires Chained(events, now) && e.timestamp == now + |events|
    requires e.parent == ParentAt(events, |events|)
    requires forall i :: 0 <= i < |events| ==> events[i].id != e.id
    ensures Chained(events + [e], now)
  {
    hide Parented, ParentAt;
    ParentedOn(events, e);
  }

  class Builder {
    const now: int
    var events: seq<Event>
    var lastId: Option<nat>
    var count: nat
    /** Stands for the source of fresh ids: those below have been drawn. */
    var drawn: nat

    ghost predicate Valid()
      reads this
    {
      && count == |events|
      && lastId == ParentAt(events, |events|)
      && Chained(events, now)
      && forall i :: 0 <= i < |events| ==> events[i].id < drawn
    }

    constructor (now: int)
      ensures Valid() && this.now == now && events == []
    {
      this.now, events, lastId, count, drawn := now, [], None, 0, 0;
    }

    method Add(data: Data)
      requires Valid()
      modifies this
      ensures Valid()
      ensures |events| == |old(events)| + 1 && old(events) <= events
      ensures Datas(events) == Datas(old(events)) + [data]
    {
      var id := drawn;
      var e := Event(id, lastId, now + count, data);
      count := count + 1;
      assert (events + [e])[..|events|] == events;
      ChainedOn(events, e, now);
      events := events + [e];
      lastId := Some(id);
      drawn := id + 1;
    }
  }

  datatype Result = Built(events: seq<Event>) | Refused(at: nat)

  lemma {:induction false} DefinedExactly(defs: map<CallId, Call>, calls: seq<Call>, n: nat, id: CallId)
    requires n <= |calls|
    ensures id in Define(defs, calls, n) <==> id in defs || exists i :: 0 <= i < n && calls[i].id == id
  {
    if n > 0 {
      DefinedExactly(defs, calls, n - 1, id);
    }
  }

  /** The definitions so far are those requested so far. */
  lemma {:induction false} DefsAreRequests(messages: seq<Message>, n: nat, id: CallId)
    requires n <= |messages|
    ensures id in Defs(messages, n) <==> RequestedBefore(messages, n, id)
  {
    if n > 0 {
      DefsAreRequests(messages, n - 1, id);
      DefinedExactly(Defs(messages, n - 1), CallsOf(messages[n - 1]), |CallsOf(messages[n - 1])|, id);
      var calls := CallsOf(messages[n - 1]);
      assert Names(messages[n - 1], id) <==> exists i :: 0 <= i < |calls| && calls[i].id == id;
    }
  }

  lemma Regroup<T>(s: seq<T>, x: T, y: T, z: T)
    ensures s + [x] + [y] == s + [x, y] && s + [x] + [y] + [z] == s + [x, y, z]
  {
  }

  /** The calls of one assistant message: their requests and definitions, or the first that cannot be replayed. */
  method DecodeCalls(calls: seq<Call>, defs: map<CallId, Call>)
    returns (good: bool, requests: seq<Call>, defined: map<CallId, Call>)
    ensures good <==> forall i :: 0 <= i < |calls| ==> GoodCall(calls[i])
    ensures good ==> requests == DecodedCalls(calls, |calls|) && defined == Define(defs, calls, |calls|)
  {
    good, requests, defined := true, [], defs;
    for i := 0 to |calls|
      invariant good && forall j :: 0 <= j < i ==> GoodCall(calls[j])
      invariant requests == DecodedCalls(calls, i) && defined == Define(defs, calls, i)
    {
      if calls[i].id == Unset {
        return false, requests, defined;
      }
      if calls[i].arguments.NotJson? {
        return false, requests, defined;
      }
      requests := requests + [Call(calls[i].id, calls[i].name, Decoded(calls[i].arguments))];
      defined := defined[calls[i].id := calls[i]];
    }
  }

  /** Good calls, and answers only to definitions. */
  predicate Accepted(message: Message, defs: map<CallId, Call>) {
    match message
    case UserMessage(_) => true
    case AssistantMessage(_, _, calls) => forall i :: 0 <= i < |calls| ==> GoodCall(calls[i])
    case ToolMessage(id, _) => id in defs
    case OtherMessage(_) => false
  }

  lemma AcceptedExactly(messages: seq<Message>, k: nat)
    requires k < |messages|
    ensures Accepted(messages[k], Defs(messages, k)) <==> Replayable(messages, k)
  {
    if messages[k].ToolMessage? {
      DefsAreRequests(messages, k, messages[k].callId);
    }
  }

  /** One message's events, with the turn it opens and the calls it defines. */
  method AddMessage(b: Builder, message: Message, turn: nat, toolDefs: map<CallId, Call>)
    returns (good: bool, nextTurn: nat, nextDefs: map<CallId, Call>)
    requires b.Valid()
    modifies b
    ensures b.Valid() && old(b.events) <= b.events
    ensures good <==> Accepted(message, toolDefs)
    ensures good ==>
      && Datas(b.events) == Datas(old(b.events)) + DataFor(message, turn, toolDefs)
      && nextTurn == turn + (if message.AssistantMessage? then 1 else 0)
      && nextDefs == Define(toolDefs, CallsOf(message), |CallsOf(message)|)
  {
    hide Chained, Datas, Define;
    good, nextTurn, nextDefs := true, turn, toolDefs;
    NoCallsDefine(toolDefs);
    ghost var before := Datas(b.events);
    match message {
      case UserMessage(content) =>
        b.Add(UserSaid(content));
      case AssistantMessage(content, reasoning, calls) =>
        nextTurn := turn + 1;
        b.Add(TurnStart(turn));
        var requests: seq<Call>;
        good, requests, nextDefs := DecodeCalls(calls, toolDefs);
        if !good {
          return;
        }
        b.Add(AssistantSaid(content, reasoning, requests));
        b.Add(TurnEnd(turn));
        Regroup(before, TurnStart(turn), AssistantSaid(content, reasoning, requests), TurnEnd(turn));
      case ToolMessage(callId, output) =>
        if callId !in toolDefs {
          good := false;
          return;
        }
        var call := toolDefs[callId];
        b.Add(ToolStart(Call(callId, call.name, Decoded(call.arguments))));
        b.Add(ToolComplete(callId, output));
        Regroup(before, ToolStart(Call(callId, call.name, Decoded(call.arguments))), ToolComplete(callId, output),
                SessionStart);
      case OtherMessage(_) =>
        good := false;
    }
  }

  lemma NoCallsDefine(defs: map<CallId, Call>)
    ensures Define(defs, [], 0) == defs
  {
  }

  lemma NothingBuilt(messages: seq<Message>)
    ensures Datas([]) == [] && DataOf(messages, 0) == [SessionStart] && Turns(messages, 0) == 0
      && Defs(messages, 0) == map[]
  {
  }

  lemma OneMoreBuilt(messages: seq<Message>, i: nat)
    requires i < |messages|
    ensures DataOf(messages, i + 1) == DataOf(messages, i) + DataFor(messages[i], Turns(messages, i), Defs(messages, i))
    ensures Turns(messages, i + 1) == Turns(messages, i) + (if messages[i].AssistantMessage? then 1 else 0)
    ensures Defs(messages, i + 1) == Define(Defs(messages, i), CallsOf(messages[i]), |CallsOf(messages[i])|)
  {
  }

  /**
   The hydrator accepts exactly the replayable messages; it names the first message it
   cannot replay; and what it builds is one chain of events with the messages' data.
   */
  method BuildChatHistoryMessages(messages: seq<Message>, now: int) returns (result: Result)
    ensures result.Built? <==> AllReplayable(messages)
    ensures result.Built? ==>
      Chained(result.events, now) && Datas(result.events) == DataOf(messages, |messages|)
    ensures result.Refused? ==>
      result.at < |messages| && !Replayable(messages, result.at)
      && forall k :: 0 <= k < result.at ==> Replayable(messages, k)
  {
    hide Replayable, Chained, Define, DataFor, Accepted, Datas, DataOf, Turns, Defs;
    NothingBuilt(messages);
    var b := new Builder(now);
    b.Add(SessionStart);
    var toolDefs: map<CallId, Call>, turn := map[], 0;
    for i := 0 to |messages|
      invariant b.Valid() && b.now == now && fresh(b)
      invariant toolDefs == Defs(messages, i) && turn == Turns(messages, i)
      invariant forall k :: 0 <= k < i ==> Replayable(messages, k)
      invariant Datas(b.events) == DataOf(messages, i)
    {
      AcceptedExactly(messages, i);
      OneMoreBuilt(messages, i);
      var good;
      good, turn, toolDefs := AddMessage(b, messages[i], turn, toolDefs);
      if !good {
        return Refused(i);
      }
    }
    result := Built(b.events);
  }

  // ---- The events tell the messages ------------------------------------------------------

  /** What can be read back from one event: a message, or nothing by itself. */
  function ReadOne(data: Data): seq<Message> {
    match data
    case UserSaid(content) => [UserMessage(content)]
    case AssistantSaid(content, reasoning, requests) => [AssistantMessage(content, reasoning, requests)]
    case ToolComplete(id, output) => [ToolMessage(id, output)]
    case _ => []
  }

  function Read(datas: seq<Data>): seq<Message> {
    if datas == [] then [] else Read(datas[..|datas| - 1]) + ReadOne(datas[|datas| - 1])
  }

  function Normal(message: Message): Message {
    if message.AssistantMessage? then message.(calls := DecodedCalls(message.calls, |message.calls|)) else message
  }

  /** Read back, a message is what it was, but that a call without arguments has the empty object. */
  lemma NormalKeepsTheCalls(message: Message)
    ensures var read := Normal(message);
            if !message.AssistantMessage? then read == message
            else
              && read == AssistantMessage(message.content, message.reasoning, read.calls)
              && |read.calls| == |message.calls|
              && forall i :: 0 <= i < |message.calls| ==>
                   && read.calls[i].id == message.calls[i].id && read.calls[i].name == message.calls[i].name
                   && read.calls[i].arguments
                      == if message.calls[i].arguments.NoArguments? then JsonValue("{}") else message.calls[i].arguments
  {
  }

  function Normals(messages: seq<Message>, n: nat): seq<Message>
    requires n <= |messages|
  {
    if n == 0 then [] else Normals(messages, n - 1) + [Normal(messages[n - 1])]
  }

  lemma ReadMore(datas: seq<Data>, data: Data)
    ensures Read(datas + [data]) == Read(datas) + ReadOne(data)
  {
    hide ReadOne;
    assert (datas + [data])[..|datas|] == datas;
  }

  lemma ReadMessage(datas: seq<Data>, message: Message, turn: nat, defs: map<CallId, Call>)
    requires !message.OtherMessage? && (message.ToolMessage? ==> message.callId in defs)
    ensures Read(datas + DataFor(message, turn, defs)) == Read(datas) + [Normal(message)]
  {
    hide Read;
    match message {
      case UserMessage(content) =>
        ReadMore(datas, UserSaid(content));
      case AssistantMessage(content, reasoning, calls) =>
        var said := AssistantSaid(content, reasoning, DecodedCalls(calls, |calls|));
        Regroup(datas, TurnStart(turn), said, TurnEnd(turn));
        ReadMore(datas, TurnStart(turn));
        ReadMore(datas + [TurnStart(turn)], said);
        ReadMore(datas + [TurnStart(turn)] + [said], TurnEnd(turn));
        AppendNothing(Read(datas));
        AppendNothing(Read(datas) + [Normal(message)]);
      case ToolMessage(id, output) =>
        var start := ToolStart(Call(id, defs[id].name, Decoded(defs[id].arguments)));
        Regroup(datas, start, ToolComplete(id, output), SessionStart);
        ReadMore(datas, start);
        ReadMore(datas + [start], ToolComplete(id, output));
        AppendNothing(Read(datas));
    }
  }

  predicate ReadsBack(messages: seq<Message>, n: nat)
    requires n <= |messages|
  {
    Read(DataOf(messages, n)) == Normals(messages, n)
  }

  lemma ReadsBackStart(messages: seq<Message>)
    ensures ReadsBack(messages, 0)
  {
    assert [SessionStart][..0] == [];
  }

  lemma ReadsBackStep(messages: seq<Message>, n: nat)
    requires 0 < n <= |messages| && ReadsBack(messages, n - 1) && Replayable(messages, n - 1)
    ensures ReadsBack(messages, n)
  {
    hide DataFor, Normal, Read, Define;
    if messages[n - 1].ToolMessage? {
      DefsAreRequests(messages, n - 1, messages[n - 1].callId);
    }
    ReadMessage(DataOf(messages, n - 1), messages[n - 1], Turns(messages, n - 1), Defs(messages, n - 1));
  }

  /** From the events' data the messages can be read back, but for decoded arguments. */
  lemma {:induction false} EventsTellTheMessages(messages: seq<Message>, n: nat)
    requires n <= |messages| && AllReplayable(messages)
    ensures Read(DataOf(messages, n)) == Normals(messages, n)
  {
    hide Read, DataOf, Normals;
    if n == 0 {
      ReadsBackStart(messages);
    } else {
      EventsTellTheMessages(messages, n - 1);
      ReadsBackStep(messages, n);
    }
  }

  // ---- Every assistant message is a turn of its own --------------------------------------------

  function TurnsIn(datas: seq<Data>): nat {
    if datas == [] then 0
    else TurnsIn(datas[..|datas| - 1]) + if datas[|datas| - 1].AssistantSaid? then 1 else 0
  }

  /** An assistant's words stand between the start and the end of the next turn. */
  predicate InItsTurn(datas: seq<Data>, d: nat)
    requires d < |datas| && datas[d].AssistantSaid?
  {
    && 0 < d < |datas| - 1
    && datas[d - 1] == TurnStart(TurnsIn(datas[..d])) && datas[d + 1] == TurnEnd(TurnsIn(datas[..d]))
  }

  /** So does every assistant message, and the turns so far are counted. */
  predicate TurnByTurn(datas: seq<Data>, turns: nat) {
    && (forall d :: 0 <= d < |datas| && datas[d].AssistantSaid? ==> InItsTurn(datas, d))
    && TurnsIn(datas) == turns
  }

  lemma OneMoreData(datas: seq<Data>, data: Data)
    ensures TurnsIn(datas + [data]) == TurnsIn(datas) + if data.AssistantSaid? then 1 else 0
  {
    assert (datas + [data])[..|datas|] == datas;
  }

  lemma InItsTurnStays(datas: seq<Data>, more: seq<Data>, d: nat)
    requires d < |datas| && datas[d].AssistantSaid? && InItsTurn(datas, d)
    ensures InItsTurn(datas + more, d)
  {
    assert (datas + more)[..d] == datas[..d];
  }

  lemma TurnByTurnStep(datas: seq<Data>, message: Message, turn: nat, defs: map<CallId, Call>)
    requires TurnByTurn(datas, turn)
    ensures TurnByTurn(datas + DataFor(message, turn, defs), turn + if message.AssistantMessage? then 1 else 0)
  {
    hide InItsTurn, TurnsIn;
    var more := DataFor(message, turn, defs);
    var all := datas + more;
    forall d | 0 <= d < |all| && all[d].AssistantSaid? ensures InItsTurn(all, d) {
      if d < |datas| {
        InItsTurnStays(datas, more, d);
      } else {
        assert all[d] == more[d - |datas|] && d == |datas| + 1;
        JustInItsTurn(datas, message, turn, defs);
      }
    }
    TurnsGrow(datas, message, turn, defs);
  }

  lemma JustInItsTurn(datas: seq<Data>, message: Message, turn: nat, defs: map<CallId, Call>)
    requires message.AssistantMessage? && TurnsIn(datas) == turn
    ensures InItsTurn(datas + DataFor(message, turn, defs), |datas| + 1)
  {
    var all := datas + DataFor(message, turn, defs);
    assert all[..|datas| + 1] == datas + [TurnStart(turn)];
    OneMoreData(datas, TurnStart(turn));
  }

  lemma TurnsGrow(datas: seq<Data>, message: Message, turn: nat, defs: map<CallId, Call>)
    ensures TurnsIn(datas + DataFor(message, turn, defs)) == TurnsIn(datas) + if message.AssistantMessage? then 1 else 0
  {
    hide TurnsIn, DecodedCalls;
    match message {
      case UserMessage(content) =>
        OneMoreData(datas, UserSaid(content));
      case AssistantMessage(content, reasoning, calls) =>
        var said := AssistantSaid(content, reasoning, DecodedCalls(calls, |calls|));
        Regroup(datas, TurnStart(turn), said, TurnEnd(turn));
        OneMoreData(datas, TurnStart(turn));
        OneMoreData(datas + [TurnStart(turn)], said);
        OneMoreData(datas + [TurnStart(turn)] + [said], TurnEnd(turn));
      case ToolMessage(id, output) =>
        AppendNothing(datas);
        if id in defs {
          var start := ToolStart(Call(id, defs[id].name, Decoded(defs[id].arguments)));
          Regroup(datas, start, ToolComplete(id, output), SessionStart);
          OneMoreData(datas, start);
          OneMoreData(datas + [start], ToolComplete(id, output));
        }
      case OtherMessage(_) =>
        AppendNothing(datas);
    }
  }

  /** Every assistant message is a turn of its own, opened before it and closed behind it, numbered from 0. */
  lemma {:induction false} EveryTurnIsBracketed(messages: seq<Message>, n: nat)
    requires n <= |messages|
    ensures TurnByTurn(DataOf(messages, n), Turns(messages, n))
  {
    hide TurnByTurn, DataFor;
    if n == 0 {
      NoTurnYet();
    } else {
      EveryTurnIsBracketed(messages, n - 1);
      TurnByTurnStep(DataOf(messages, n - 1), messages[n - 1], Turns(messages, n - 1), Defs(messages, n - 1));
    }
  }

  lemma NoTurnYet()
    ensures TurnByTurn([SessionStart], 0)
  {
    assert [SessionStart][..0] == [];
  }

  // ---- A tool's events repeat its request ----------------------------------------------------

  ghost predicate Requests(data: Data, call: Call) {
    data.AssistantSaid? && exists i :: 0 <= i < |data.requests| && data.requests[i] == call
  }

  ghost predicate RequestedIn(datas: seq<Data>, n: nat, call: Call)
    requires n <= |datas|
  {
    exists d :: 0 <= d < n && Requests(datas[d], call)
  }

  /** Every tool execution repeats an earlier request, name and arguments, and completes at once. */
  ghost predicate ToolsFollowRequests(datas: seq<Data>) {
    forall d :: 0 <= d < |datas| && datas[d].ToolStart? ==>
      && RequestedIn(datas, d, datas[d].call)
      && d + 1 < |datas| && datas[d + 1].ToolComplete? && datas[d + 1].callId == datas[d].call.id
  }

  ghost predicate DefsRequested(datas: seq<Data>, defs: map<CallId, Call>) {
    forall id :: id in defs ==> defs[id].id == id && RequestedIn(datas, |datas|, DecodedCall(defs[id]))
  }

  lemma {:induction false} DefineFrom(defs: map<CallId, Call>, calls: seq<Call>, n: nat, id: CallId)
    requires n <= |calls| && id in Define(defs, calls, n)
    ensures (id in defs && Define(defs, calls, n)[id] == defs[id])
         || exists i :: 0 <= i < n && calls[i] == Define(defs, calls, n)[id] && calls[i].id == id
  {
    if n > 0 && calls[n - 1].id != id {
      DefineFrom(defs, calls, n - 1, id);
    }
  }

  lemma RequestedStays(datas: seq<Data>, more: seq<Data>, n: nat, call: Call)
    requires n <= |datas| && RequestedIn(datas, n, call)
    ensures RequestedIn(datas + more, n, call) && RequestedIn(datas + more, |datas + more|, call)
  {
    var d :| 0 <= d < n && Requests(datas[d], call);
    assert (datas + more)[d] == datas[d];
  }

  lemma DefsRequestedStep(datas: seq<Data>, message: Message, turn: nat, defs: map<CallId, Call>)
    requires DefsRequested(datas, defs)
    ensures DefsRequested(datas + DataFor(message, turn, defs), Define(defs, CallsOf(message), |CallsOf(message)|))
  {
    hide RequestedIn;
    var more, calls := DataFor(message, turn, defs), CallsOf(message);
    var defined := Define(defs, calls, |calls|);
    forall id | id in defined
      ensures defined[id].id == id && RequestedIn(datas + more, |datas + more|, DecodedCall(defined[id])) {
      DefineFrom(defs, calls, |calls|, id);
      if id in defs && defined[id] == defs[id] {
        RequestedStays(datas, more, |datas|, DecodedCall(defs[id]));
      } else {
        var i :| 0 <= i < |calls| && calls[i] == defined[id] && calls[i].id == id;
        JustRequested(datas, message, turn, defs, i);
      }
    }
  }

  lemma JustRequested(datas: seq<Data>, message: Message, turn: nat, defs: map<CallId, Call>, i: nat)
    requires i < |CallsOf(message)|
    ensures var all := datas + DataFor(message, turn, defs); RequestedIn(all, |all|, DecodedCall(CallsOf(message)[i]))
  {
    var all := datas + DataFor(message, turn, defs);
    assert all[|datas| + 1] == DataFor(message, turn, defs)[1];
    assert all[|datas| + 1].requests[i] == DecodedCall(CallsOf(message)[i]);
    assert Requests(all[|datas| + 1], DecodedCall(CallsOf(message)[i]));
  }

  lemma ToolsFollowStep(datas: seq<Data>, message: Message, turn: nat, defs: map<CallId, Call>)
    requires ToolsFollowRequests(datas) && DefsRequested(datas, defs)
    ensures ToolsFollowRequests(datas + DataFor(message, turn, defs))
  {
    hide RequestedIn;
    var more := DataFor(message, turn, defs);
    var all := datas + more;
    forall d | 0 <= d < |all| && all[d].ToolStart?
      ensures RequestedIn(all, d, all[d].call)
      ensures d + 1 < |all| && all[d + 1].ToolComplete? && all[d + 1].callId == all[d].call.id
    {
      if d < |datas| {
        assert all[d] == datas[d] && all[d + 1] == datas[d + 1];
        RequestedStays(datas, more, d, all[d].call);
      } else {
        assert all[d] == more[d - |datas|];
        assert d == |datas| && all[d + 1] == more[1];
        assert all[d].call == DecodedCall(defs[message.callId]);
        RequestedStays(datas, more, |datas|, all[d].call);
      }
    }
  }

  ghost predicate Matched(messages: seq<Message>, n: nat)
    requires n <= |messages|
  {
    ToolsFollowRequests(DataOf(messages, n)) && DefsRequested(DataOf(messages, n), Defs(messages, n))
  }

  lemma MatchedStart(messages: seq<Message>)
    ensures Matched(messages, 0)
  {
  }

  lemma MatchedStep(messages: seq<Message>, n: nat)
    requires 0 < n <= |messages| && Matched(messages, n - 1)
    ensures Matched(messages, n)
  {
    hide ToolsFollowRequests, DefsRequested, DataFor, Define;
    ToolsFollowStep(DataOf(messages, n - 1), messages[n - 1], Turns(messages, n - 1), Defs(messages, n - 1));
    DefsRequestedStep(DataOf(messages, n - 1), messages[n - 1], Turns(messages, n - 1), Defs(messages, n - 1));
  }

  lemma {:induction false} ToolEventsRepeatTheirRequests(messages: seq<Message>, n: nat)
    requires n <= |messages|
    ensures ToolsFollowRequests(DataOf(messages, n)) && DefsRequested(DataOf(messages, n), Defs(messages, n))
  {
    hide ToolsFollowRequests, DefsRequested, DataOf, Defs;
    if n == 0 {
      MatchedStart(messages);
    } else {
      ToolEventsRepeatTheirRequests(messages, n - 1);
      MatchedStep(messages, n);
    }
  }

  // ---- The events say what the messages say --------------------------------------------------

  /** What one event says, read off its data. */
  function LinesOf(data: Data): seq<Line> {
    match data
    case UserSaid(content) => Lines(User, TextsIn(content))
    case AssistantSaid(content, reasoning, _) => Lines(Thinking, reasoning) + Lines(Speaker.Assistant, TextsIn(content))
    case _ => []
  }

  function SaidIn(events: seq<Event>): seq<Line> {
    if events == [] then [] else SaidIn(events[..|events| - 1]) + LinesOf(events[|events| - 1].data)
  }

  lemma ReadOneSays(data: Data)
    ensures Transcript(ReadOne(data)) == LinesOf(data)
  {
    hide Transcript, TextsIn;
    NothingSaid();
    if |ReadOne(data)| == 1 {
      OneMessage(ReadOne(data)[0]);
    }
  }

  lemma {:induction false} EventsSay(events: seq<Event>)
    ensures SaidIn(events) == Transcript(Read(Datas(events)))
  {
    hide LinesOf, ReadOne, Read, Transcript;
    if events == [] {
      NothingSaid();
      NothingRead();
    } else {
      var front, data := events[..|events| - 1], events[|events| - 1].data;
      EventsSay(front);
      ReadMore(Datas(front), data);
      TranscriptConcat(Read(Datas(front)), ReadOne(data));
      ReadOneSays(data);
    }
  }

  lemma NothingRead()
    ensures Read([]) == []
  {
  }

  lemma {:induction false} NormalsSay(messages: seq<Message>, n: nat)
    requires n <= |messages|
    ensures Transcript(Normals(messages, n)) == Transcript(messages[..n])
  {
    hide Transcript, LinesIn, Normal;
    if n > 0 {
      NormalsSay(messages, n - 1);
      var m := messages[n - 1];
      assert messages[..n] == messages[..n - 1] + [m];
      TranscriptConcat(messages[..n - 1], [m]);
      TranscriptConcat(Normals(messages, n - 1), [Normal(m)]);
      OneMessage(m);
      OneMessage(Normal(m));
      NormalSays(m);
    }
  }

  lemma NormalSays(m: Message)
    ensures LinesIn(Normal(m)) == LinesIn(m)
  {
  }

  /** A session read back as messages up to decoded arguments says what the messages say. */
  lemma SessionSays(events: seq<Event>, messages: seq<Message>)
    requires Read(Datas(events)) == Normals(messages, |messages|)
    ensures SaidIn(events) == Transcript(messages)
  {
    hide *;
    EventsSay(events);
    NormalsSay(messages, |messages|);
    assert messages[..|messages|] == messages;
  }

  // ---- A response chain, hydrated ---------------------------------------------------------------

  datatype Hydrated = NoHistory | Session(events: seq<Event>) | Failed(at: nat)

  /**
   Hydrating a chain never fails in the hydrator: there is nothing to replay, or the
   session holds the chain's history, turn by turn, every tool execution behind its
   request, and says what the chain's records say.
   */
  method HydrateResponseContinuation(records: Records, previous: Record, now: int)
    returns (result: Hydrated, ghost chain: seq<Record>)
    requires forall id :: id in records ==> records[id].id == id
    ensures chain != [] && chain[|chain| - 1] == previous && IsChain(records, chain)
    ensures !result.Failed?
    ensures result.NoHistory? <==> History(chain) == []
    ensures result.Session? ==>
      && Chained(result.events, now)
      && Read(Datas(result.events)) == Normals(History(chain), |History(chain)|)
      && ToolsFollowRequests(Datas(result.events))
      && TurnByTurn(Datas(result.events), Turns(History(chain), |History(chain)|))
    ensures (if result.Session? then SaidIn(result.events) else [])
         == Conversation(chain, |chain|, Answered(chain, |chain|))
  {
    var found := ResponseContinuationChain(records, previous);
    chain := found;
    var messages := ResponseContinuationHistory(found);
    HistoryIsReplayable(found);
    NothingSaid();
    if |messages| == 0 {
      return NoHistory, found;
    }
    var built := BuildChatHistoryMessages(messages, now);
    EventsTellTheMessages(messages, |messages|);
    ToolEventsRepeatTheirRequests(messages, |messages|);
    EveryTurnIsBracketed(messages, |messages|);
    if built.Built? { SessionSays(built.events, messages); }
    result := match built case Built(events) => Session(events) case Refused(at) => Failed(at);
  }
}
