/**
 Input buffered by warm (generate:false) responses (internal/copilotgw/
 response_session.go, warm_response.go; internal/sessionstore/store.go,
 ClearInputPending): collected along the record chain, sent to the SDK session the
 records name, and only then marked as delivered.
 */
module WarmInput {
  import opened Common

  const RESPONSE_CONTINUATION_CHAIN_LIMIT := 20

  type Id = nat
  type Session = nat

  datatype Input = Blank | Words(text: string)

  datatype Record = Record(session: Session, pending: bool, input: Input, previous: Option<Id>, deleted: bool)

  type Records = map<Id, Record>

  /** What a continuation can load: a record that is there and not deleted. */
  predicate Loadable(records: Records, id: Id) {
    id in records && !records[id].deleted
  }

  // ---- The run of pending records ------------------------------------------------

  predicate Claims(record: Record, session: Session) {
    record.pending && record.session == session
  }

  /** The pending records from `id` back along the chain, newest first. */
  function PendingRun(records: Records, id: Id, record: Record, session: Session, seen: set<Id>, limit: nat): seq<Id>
    decreases limit
  {
    if limit == 0 || id in seen || !Claims(record, session) then []
    else [id] + EarlierRun(records, id, record, session, seen, limit)
  }

  function EarlierRun(records: Records, id: Id, record: Record, session: Session, seen: set<Id>, limit: nat): seq<Id>
    requires limit > 0
    decreases limit, 0
  {
    if record.previous.None? || !Loadable(records, record.previous.value) then []
    else PendingRun(records, record.previous.value, records[record.previous.value], session, seen + {id}, limit - 1)
  }

  function RunOf(records: Records, id: Id, record: Record): seq<Id> {
    PendingRun(records, id, record, record.session, {}, RESPONSE_CONTINUATION_CHAIN_LIMIT)
  }

  /** The record a run's element stands for: the first was handed in, the others are loaded. */
  function At(records: Records, id: Id, record: Record, x: Id): Record
    requires x == id || x in records
  {
    if x == id then record else records[x]
  }

  /** A chain of different records, each naming the next, all claiming input for the session. */
  ghost predicate IsRun(records: Records, id: Id, record: Record, session: Session, run: seq<Id>) {
    && (run != [] ==> run[0] == id)
    && (forall i, j :: 0 <= i < j < |run| ==> run[i] != run[j])
    && (forall i :: 0 < i < |run| ==> Loadable(records, run[i]))
    && (forall i :: 0 <= i < |run| ==> run[i] == id || run[i] in records)
    && (forall i :: 0 <= i < |run| ==> Claims(At(records, id, record, run[i]), session))
    && (forall i :: 0 < i < |run| ==> At(records, id, record, run[i - 1]).previous == Some(run[i]))
  }

  /** The run's last record names another that claims input for the session and is not in the run yet. */
  predicate GoesOn(records: Records, last: Record, session: Session, run: seq<Id>) {
    last.previous.Some? && Loadable(records, last.previous.value)
    && last.previous.value !in run && Claims(records[last.previous.value], session)
  }

  /** The run cannot go on: the chain ends, or its next record is gone, settled, another session's or already in it. */
  ghost predicate Ends(records: Records, id: Id, record: Record, session: Session, run: seq<Id>)
    requires IsRun(records, id, record, session, run)
  {
    if run == [] then !Claims(record, session)
    else !GoesOn(records, At(records, id, record, run[|run| - 1]), session, run)
  }

  lemma OneMore(records: Records, id: Id, record: Record, session: Session, run: seq<Id>, next: Id)
    requires IsRun(records, id, record, session, run) && run != []
    requires At(records, id, record, run[|run| - 1]).previous == Some(next) && Loadable(records, next)
    requires next !in run && Claims(records[next], session)
    ensures next != id && IsRun(records, id, record, session, run + [next])
  {
    assert run[0] == id;
  }

  /** One step along the chain behind a run. */
  lemma EarlierRunStep(records: Records, last: Id, record: Record, session: Session, run: seq<Id>, limit: nat)
    requires run != [] && run[|run| - 1] == last
    ensures EarlierRun(records, last, record, session, SetOf(run[..|run| - 1]), limit + 1)
         == if limit > 0 && GoesOn(records, record, session, run)
            then [record.previous.value]
                 + EarlierRun(records, record.previous.value, records[record.previous.value], session, SetOf(run),
                              limit)
            else []
  {
    assert run == run[..|run| - 1] + [last];
    assert SetOf(run) == SetOf(run[..|run| - 1]) + {last};
  }

  lemma {:induction false} RunExtends(records: Records, id: Id, record: Record, session: Session, run: seq<Id>,
                                      limit: nat)
    requires IsRun(records, id, record, session, run) && run != [] && |run| <= limit
    ensures var last := run[|run| - 1];
            var out := run
              + EarlierRun(records, last, At(records, id, record, last), session, SetOf(run[..|run| - 1]),
                           limit - |run| + 1);
            && IsRun(records, id, record, session, out)
            && |out| <= limit
            && (|out| == limit || Ends(records, id, record, session, out))
    decreases limit - |run|
  {
    var last := At(records, id, record, run[|run| - 1]);
    EarlierRunStep(records, run[|run| - 1], last, session, run, limit - |run|);
    if limit > |run| && GoesOn(records, last, session, run) {
      var next := last.previous.value;
      OneMore(records, id, record, session, run, next);
      RunExtends(records, id, record, session, run + [next], limit);
      assert (run + [next])[..|run|] == run;
      Regroup(run, next, EarlierRun(records, next, records[next], session, SetOf(run), limit - |run|));
    } else {
      assert run + [] == run;
    }
  }

  function SetOf(run: seq<Id>): set<Id> {
    set x | x in run
  }

  /** What is collected is the longest run there is, up to the chain limit. */
  lemma RunIsMaximal(records: Records, id: Id, record: Record)
    ensures var run := RunOf(records, id, record);
            && IsRun(records, id, record, record.session, run)
            && |run| <= 20
            && (|run| == 20 || Ends(records, id, record, record.session, run))
  {
    if record.pending {
      RunExtends(records, id, record, record.session, [id], RESPONSE_CONTINUATION_CHAIN_LIMIT);
      assert SetOf([id][..0]) == {};
    }
  }

  /** And there is only one such run. */
  lemma {:induction false} RunsAgree(records: Records, id: Id, record: Record, session: Session, a: seq<Id>, b: seq<Id>,
                                     limit: nat)
    requires IsRun(records, id, record, session, a) && IsRun(records, id, record, session, b)
    requires |a| <= limit && |b| <= limit
    requires |a| == limit || Ends(records, id, record, session, a)
    requires |b| == limit || Ends(records, id, record, session, b)
    ensures a == b
  {
    RunsShareElements(records, id, record, session, a, b, if |a| < |b| then |a| else |b|);
    var m := if |a| < |b| then |a| else |b|;
    if |a| < |b| {
      ShorterRunGoesOn(records, id, record, session, a, b);
    } else if |b| < |a| {
      ShorterRunGoesOn(records, id, record, session, b, a);
    }
  }

  lemma ShorterRunGoesOn(records: Records, id: Id, record: Record, session: Session, short: seq<Id>, long: seq<Id>)
    requires IsRun(records, id, record, session, short) && IsRun(records, id, record, session, long)
    requires |short| < |long| && forall i :: 0 <= i < |short| ==> short[i] == long[i]
    ensures !Ends(records, id, record, session, short)
  {
    var m := |short|;
    assert Claims(At(records, id, record, long[m]), session);
    assert long[0] == id;
    if m > 0 {
      assert At(records, id, record, long[m - 1]).previous == Some(long[m]);
      assert long[m] !in short;
    }
  }

  lemma {:induction false} RunsShareElements(records: Records, id: Id, record: Record, session: Session, a: seq<Id>,
                                             b: seq<Id>, m: nat)
    requires IsRun(records, id, record, session, a) && IsRun(records, id, record, session, b) && m <= |a| && m <= |b|
    ensures forall i :: 0 <= i < m ==> a[i] == b[i]
  {
    if m > 0 {
      RunsShareElements(records, id, record, session, a, b, m - 1);
      if m > 1 {
        assert At(records, id, record, a[m - 2]).previous == Some(a[m - 1]);
        assert At(records, id, record, b[m - 2]).previous == Some(b[m - 1]);
      }
    }
  }

  function Reversed<T>(s: seq<T>): (r: seq<T>)
    ensures |r| == |s| && forall i :: 0 <= i < |s| ==> r[i] == s[|s| - 1 - i]
  {
    if s == [] then [] else Reversed(s[1..]) + [s[0]]
  }

  /** A blank input is settled like any other but says nothing. */
  function Said(input: Input): seq<string> {
    if input.Words? then [input.text] else []
  }

  /** What the pending records say, newest first. */
  function PendingWords(records: Records, id: Id, record: Record, session: Session, seen: set<Id>,
                        limit: nat): seq<string>
    decreases limit
  {
    if limit == 0 || id in seen || !Claims(record, session) then []
    else
      Said(record.input)
      + if record.previous.None? || !Loadable(records, record.previous.value) then []
        else PendingWords(records, record.previous.value, records[record.previous.value], session, seen + {id},
                          limit - 1)
  }

  function WordsOf(records: Records, id: Id, record: Record): seq<string> {
    PendingWords(records, id, record, record.session, {}, RESPONSE_CONTINUATION_CHAIN_LIMIT)
  }

  function WordsAlong(records: Records, run: seq<Id>): seq<string>
    requires forall i :: 0 <= i < |run| ==> run[i] in records
  {
    if run == [] then [] else Said(records[run[0]].input) + WordsAlong(records, run[1..])
  }

  /** The words are those of the run's records, in its order. */
  lemma {:induction false} WordsFollowRun(records: Records, id: Id, record: Record, session: Session, seen: set<Id>,
                                          limit: nat)
    ensures var run := PendingRun(records, id, record, session, seen, limit);
            && (forall i :: 0 < i < |run| ==> run[i] in records)
            && PendingWords(records, id, record, session, seen, limit)
               == if run == [] then [] else Said(record.input) + WordsAlong(records, run[1..])
    decreases limit
  {
    if limit > 0 && id !in seen && Claims(record, session) && record.previous.Some?
      && Loadable(records, record.previous.value) {
      var next := record.previous.value;
      WordsFollowRun(records, next, records[next], session, seen + {id}, limit - 1);
      var rest := PendingRun(records, next, records[next], session, seen + {id}, limit - 1);
      assert ([id] + rest)[1..] == rest;
      if rest != [] { assert rest == [next] + rest[1..]; }
    }
  }

  lemma Regroup(ids: seq<Id>, x: Id, rest: seq<Id>)
    ensures ids + ([x] + rest) == (ids + [x]) + rest && (ids + [x])[..|ids|] == ids && ids + [x] <= (ids + [x]) + rest
  {
  }

  datatype Pending = Pending(responseIds: seq<Id>, texts: seq<string>)

  /** What the record chain buffered for the session and never sent, oldest first. */
  method PendingInputForSession(records: Records, id: Id, record: Record) returns (pending: Pending)
    ensures pending.responseIds == Reversed(RunOf(records, id, record))
    ensures pending.texts == Reversed(WordsOf(records, id, record))
  {
    var ids: seq<Id>, texts: seq<string>, seen: set<Id> := [], [], {};
    var current, currentId := record, id;
    var left: nat := RESPONSE_CONTINUATION_CHAIN_LIMIT;
    while left > 0 && currentId !in seen && Claims(current, record.session)
      invariant RunOf(records, id, record) == ids + PendingRun(records, currentId, current, record.session, seen, left)
      invariant WordsOf(records, id, record)
             == texts + PendingWords(records, currentId, current, record.session, seen, left)
      decreases left
    {
      Advance(records, ids, texts, currentId, current, record.session, seen, left);
      ids := ids + [currentId];
      if current.input.Words? {
        texts := texts + [current.input.text];
      } else {
        assert texts + [] == texts;
      }
      if current.previous.None? || !Loadable(records, current.previous.value) {
        assert ids + [] == ids && texts + [] == texts;
        return Pending(Reversed(ids), Reversed(texts));
      }
      seen := seen + {currentId};
      left := left - 1;
      currentId := current.previous.value;
      current := records[currentId];
    }
    assert ids + [] == ids && texts + [] == texts;
    pending := Pending(Reversed(ids), Reversed(texts));
  }

  lemma Advance(records: Records, ids: seq<Id>, texts: seq<string>, id: Id, record: Record, session: Session,
                seen: set<Id>, left: nat)
    requires left > 0 && id !in seen && Claims(record, session)
    ensures var more := record.previous.Some? && Loadable(records, record.previous.value);
            && ids + PendingRun(records, id, record, session, seen, left)
               == (ids + [id])
                 + (if more
                    then PendingRun(records, record.previous.value, records[record.previous.value], session,
                                    seen + {id}, left - 1)
                    else [])
            && texts + PendingWords(records, id, record, session, seen, left)
               == (texts + Said(record.input))
                 + (if more
                    then PendingWords(records, record.previous.value, records[record.previous.value], session,
                                      seen + {id}, left - 1)
                    else [])
  {
  }

  // ---- A warm session and a resume carry the same ----------------------------------

  function Newest(run: seq<Id>): seq<Id> {
    if |run| <= RESPONSE_CONTINUATION_CHAIN_LIMIT then run else run[..RESPONSE_CONTINUATION_CHAIN_LIMIT]
  }

  lemma RunSurvivesSave(records: Records, previous: Id, id: Id, record: Record, run: seq<Id>)
    requires id !in records && Loadable(records, previous) && record.previous == Some(previous)
    requires record.pending && !record.deleted && record.session == records[previous].session
    requires IsRun(records, previous, records[previous], record.session, run)
    ensures IsRun(records[id := record], id, record, record.session, [id] + run)
  {
    var saved, longer := records[id := record], [id] + run;
    forall i | 0 < i < |longer|
      ensures longer[i] != id && Loadable(saved, longer[i]) && Claims(At(saved, id, record, longer[i]), record.session)
           && At(saved, id, record, longer[i - 1]).previous == Some(longer[i]) {
      assert longer[i] == run[i - 1];
      assert At(records, previous, records[previous], run[i - 1]) == records[run[i - 1]];
      if i > 1 { assert longer[i - 1] == run[i - 2]; }
    }
  }

  lemma PrefixIsRun(records: Records, id: Id, record: Record, session: Session, run: seq<Id>, n: nat)
    requires IsRun(records, id, record, session, run) && n <= |run|
    ensures IsRun(records, id, record, session, run[..n])
  {
  }

  lemma EndSurvivesSave(records: Records, previous: Id, id: Id, record: Record, run: seq<Id>)
    requires id !in records && Loadable(records, previous) && record.previous == Some(previous)
    requires record.pending && !record.deleted && record.session == records[previous].session
    requires IsRun(records, previous, records[previous], record.session, run)
    requires Ends(records, previous, records[previous], record.session, run)
    ensures IsRun(records[id := record], id, record, record.session, [id] + run)
    ensures Ends(records[id := record], id, record, record.session, [id] + run)
  {
    RunSurvivesSave(records, previous, id, record, run);
    if run != [] {
      var longer := [id] + run;
      assert longer[|longer| - 1] == run[|run| - 1];
      assert longer[0] == id && forall x :: x in run ==> x in longer;
      assert run[|run| - 1] == previous || run[|run| - 1] in records;
    } else {
      assert [id] + run == [id];
    }
  }

  /**
   A warm response on top of another: what its session carries in memory, newest
   first, is what a resume of its record would collect, but for the chain limit.
   */
  lemma WarmSessionCarriesItsRun(records: Records, previous: Id, id: Id, record: Record)
    requires id !in records && Loadable(records, previous) && record.previous == Some(previous)
    requires record.pending && !record.deleted && record.session == records[previous].session
    ensures RunOf(records[id := record], id, record) == Newest([id] + RunOf(records, previous, records[previous]))
  {
    var saved, run := records[id := record], RunOf(records, previous, records[previous]);
    RunIsMaximal(records, previous, records[previous]);
    RunIsMaximal(saved, id, record);
    RunSurvivesSave(records, previous, id, record, run);
    var carried := Newest([id] + run);
    PrefixIsRun(saved, id, record, record.session, [id] + run, |carried|);
    assert ([id] + run)[..|carried|] == carried;
    if |run| < RESPONSE_CONTINUATION_CHAIN_LIMIT { EndSurvivesSave(records, previous, id, record, run); }
    RunsAgree(saved, id, record, record.session, RunOf(saved, id, record), carried, RESPONSE_CONTINUATION_CHAIN_LIMIT);
  }

  // ---- Delivered before settled -------------------------------------------------------

  /** Clearing a claim rewrites that one field; a record that is gone, deleted or settled stays as it is. */
  function ClearInputPending(records: Records, id: Id): Records {
    if !Loadable(records, id) || !records[id].pending then records
    else records[id := records[id].(pending := false)]
  }

  /** An input that was buffered, and for which session. */
  datatype Buffered = Buffered(session: Session, input: Input)

  /** What the buffered inputs of these records say, in this order. */
  function SaidBy(buffered: map<Id, Buffered>, ids: seq<Id>): seq<string>
    requires forall i :: 0 <= i < |ids| ==> ids[i] in buffered
  {
    if ids == [] then [] else Said(buffered[ids[0]].input) + SaidBy(buffered, ids[1..])
  }

  /**
   A turn under way, or a warm session waiting for one: the session it sends to, the
   buffered inputs its prompt repeats, what they say, its own input behind them, and
   whether it was sent.
   */
  datatype Turn = Turn(session: Session, ids: seq<Id>, texts: seq<string>, current: Input, sent: bool)

  /** A prompt as it was sent: the buffered texts first, the turn's own behind. */
  datatype Prompt = Prompt(session: Session, ids: seq<Id>, texts: seq<string>)

  function PromptOf(t: Turn): Prompt {
    Prompt(t.session, t.ids, t.texts + Said(t.current))
  }

  /**
   The records on disk; which inputs were ever buffered; which inputs each session has
   been sent, and in which prompts; and, in memory only, the turns and the warm sessions.
   */
  datatype World = World(
    records: Records,
    buffered: map<Id, Buffered>,
    delivered: set<(Session, Id)>,
    sends: seq<Prompt>,
    turns: map<nat, Turn>,
    warm: map<Id, Turn>)

  function Start(): World {
    World(map[], map[], {}, [], map[], map[])
  }

  datatype Step =
    | SaveWarm(id: Id, session: Session, input: Input, previous: Option<Id>)
    | SaveTurn(id: Id, session: Session, input: Input, previous: Option<Id>)
    | PrepareResume(turn: nat, id: Id, current: Input)
    | PrepareWarm(turn: nat, id: Id, current: Input)
    | Send(turn: nat)
    | FailSend(turn: nat)
    | Clear(turn: nat, id: Id)
    | Delete(id: Id)
    | Prune(id: Id)
    | Crash

  /** A turn that resumes a record's session repeats the record's run, oldest first. */
  function ResumeOf(records: Records, id: Id, current: Input): Turn
    requires id in records
  {
    Turn(records[id].session, Reversed(RunOf(records, id, records[id])), Reversed(WordsOf(records, id, records[id])),
         current, false)
  }

  /** What a new warm session carries: the run it was resumed on, if that was its session, then its own input. */
  function WarmSession(records: Records, id: Id, session: Session, input: Input, previous: Option<Id>): Turn {
    if previous.Some? && Loadable(records, previous.value) && records[previous.value].session == session then
      var run := ResumeOf(records, previous.value, Blank);
      Turn(session, run.ids + [id], run.texts + Said(input), Blank, false)
    else Turn(session, [id], Said(input), Blank, false)
  }

  function DeliveredTo(session: Session, ids: seq<Id>): set<(Session, Id)> {
    set x | x in ids :: (session, x)
  }

  function Next(w: World, step: Step): World {
    match step
    case SaveWarm(id, session, input, previous) =>
      if id in w.buffered || id in w.records then w
      else w.(records := w.records[id := Record(session, true, input, previous, false)],
              buffered := w.buffered[id := Buffered(session, input)],
              warm := w.warm[id := WarmSession(w.records, id, session, input, previous)])
    case SaveTurn(id, session, input, previous) =>
      if id in w.buffered || id in w.records then w
      else w.(records := w.records[id := Record(session, false, input, previous, false)])
    case PrepareResume(turn, id, current) =>
      if turn in w.turns || !Loadable(w.records, id) then w
      else w.(turns := w.turns[turn := ResumeOf(w.records, id, current)])
    case PrepareWarm(turn, id, current) =>
      if turn in w.turns || id !in w.warm then w
      else w.(turns := w.turns[turn := w.warm[id].(current := current)], warm := w.warm - {id})
    case Send(turn) =>
      if turn !in w.turns then w
      else
        var t := w.turns[turn];
        w.(delivered := w.delivered + DeliveredTo(t.session, t.ids), sends := w.sends + [PromptOf(t)],
           turns := w.turns[turn := t.(sent := true)])
    case FailSend(turn) => w.(turns := w.turns - {turn})
    case Clear(turn, id) =>
      if turn !in w.turns || !w.turns[turn].sent || id !in w.turns[turn].ids then w
      else w.(records := ClearInputPending(w.records, id))
    case Delete(id) =>
      if !Loadable(w.records, id) then w
      else w.(records := w.records[id := w.records[id].(deleted := true, pending := false)])
    case Prune(id) => w.(records := w.records - {id})
    case Crash => w.(turns := map[], warm := map[])
  }

  function Run(w: World, steps: seq<Step>): World
    decreases |steps|
  {
    if steps == [] then w else Run(Next(w, steps[0]), steps[1..])
  }

  /** The ids are those of inputs buffered for the session, and the texts are what they say. */
  ghost predicate Tells(buffered: map<Id, Buffered>, session: Session, ids: seq<Id>, texts: seq<string>) {
    && (forall i :: 0 <= i < |ids| ==> ids[i] in buffered && buffered[ids[i]].session == session)
    && texts == SaidBy(buffered, ids)
  }

  ghost predicate CarriesBuffered(w: World, t: Turn) {
    && Tells(w.buffered, t.session, t.ids, t.texts)
    && (t.sent ==> forall x :: x in t.ids ==> (t.session, x) in w.delivered)
  }

  ghost predicate RecordsTell(w: World) {
    forall id :: id in w.records && !w.records[id].deleted ==>
      && (w.records[id].pending ==> id in w.buffered)
      && (id in w.buffered ==>
          w.records[id].session == w.buffered[id].session && w.records[id].input == w.buffered[id].input)
      && (id in w.buffered && !w.records[id].pending ==> (w.buffered[id].session, id) in w.delivered)
  }

  /** A prompt starts with what the buffered inputs it names say. */
  ghost predicate PromptTells(buffered: map<Id, Buffered>, p: Prompt) {
    exists n :: 0 <= n <= |p.texts| && Tells(buffered, p.session, p.ids, p.texts[..n])
  }

  ghost predicate WasSent(sends: seq<Prompt>, session: Session, id: Id) {
    exists k :: 0 <= k < |sends| && sends[k].session == session && id in sends[k].ids
  }

  ghost predicate SendsTell(w: World) {
    && (forall k :: 0 <= k < |w.sends| ==> PromptTells(w.buffered, w.sends[k]))
    && (forall d :: d in w.delivered ==> WasSent(w.sends, d.0, d.1))
  }

  ghost predicate TurnsTell(w: World) {
    && (forall t :: t in w.turns ==> CarriesBuffered(w, w.turns[t]))
    && (forall id :: id in w.warm ==> CarriesBuffered(w, w.warm[id]) && !w.warm[id].sent)
  }

  ghost predicate Inv(w: World) {
    RecordsTell(w) && TurnsTell(w) && SendsTell(w)
  }

  lemma {:induction false} SaidByConcat(buffered: map<Id, Buffered>, a: seq<Id>, b: seq<Id>)
    requires (forall i :: 0 <= i < |a| ==> a[i] in buffered) && forall i :: 0 <= i < |b| ==> b[i] in buffered
    ensures forall i :: 0 <= i < |a + b| ==> (a + b)[i] in buffered
    ensures SaidBy(buffered, a + b) == SaidBy(buffered, a) + SaidBy(buffered, b)
  {
    hide Said;
    if a == [] {
      assert a + b == b;
    } else {
      assert (a + b)[1..] == a[1..] + b;
      SaidByConcat(buffered, a[1..], b);
      Associate(Said(buffered[a[0]].input), SaidBy(buffered, a[1..]), SaidBy(buffered, b));
    }
  }

  lemma Associate<T>(a: seq<T>, b: seq<T>, c: seq<T>)
    ensures (a + b) + c == a + (b + c)
  {
  }

  lemma {:induction false} ReversedConcat<T>(a: seq<T>, b: seq<T>)
    ensures Reversed(a + b) == Reversed(b) + Reversed(a)
  {
    if a == [] {
      assert a + b == b && Reversed(b) + [] == Reversed(b);
    } else {
      assert (a + b)[1..] == a[1..] + b;
      ReversedConcat(a[1..], b);
      Associate(Reversed(b), Reversed(a[1..]), [a[0]]);
    }
  }

  lemma SaidReversed(input: Input)
    ensures Reversed(Said(input)) == Said(input)
  {
  }

  /** Reversing the texts of a run gives the texts of the reversed run. */
  lemma {:induction false} ReversedWords(buffered: map<Id, Buffered>, ids: seq<Id>)
    requires forall i :: 0 <= i < |ids| ==> ids[i] in buffered
    ensures forall i :: 0 <= i < |ids| ==> Reversed(ids)[i] in buffered
    ensures Reversed(SaidBy(buffered, ids)) == SaidBy(buffered, Reversed(ids))
  {
    hide Said;
    if ids != [] {
      var first := Said(buffered[ids[0]].input);
      ReversedWords(buffered, ids[1..]);
      ReversedConcat(first, SaidBy(buffered, ids[1..]));
      SaidReversed(buffered[ids[0]].input);
      SaidByConcat(buffered, Reversed(ids[1..]), [ids[0]]);
      SaidByOne(buffered, ids[0]);
    }
  }

  lemma SaidByOne(buffered: map<Id, Buffered>, id: Id)
    requires id in buffered
    ensures SaidBy(buffered, [id]) == Said(buffered[id].input)
  {
    hide Said;
    assert [id][1..] == [];
    assert Said(buffered[id].input) + [] == Said(buffered[id].input);
  }

  lemma {:induction false} WordsAlongAreSaid(records: Records, buffered: map<Id, Buffered>, run: seq<Id>)
    requires forall i :: 0 <= i < |run| ==>
      run[i] in records && run[i] in buffered && records[run[i]].input == buffered[run[i]].input
    ensures WordsAlong(records, run) == SaidBy(buffered, run)
  {
    hide Said;
    if run != [] {
      WordsAlongAreSaid(records, buffered, run[1..]);
    }
  }

  /** Another buffered input changes nothing that is said already. */
  lemma {:induction false} SaidStays(buffered: map<Id, Buffered>, ids: seq<Id>, id: Id, b: Buffered)
    requires id !in buffered && forall i :: 0 <= i < |ids| ==> ids[i] in buffered
    ensures SaidBy(buffered[id := b], ids) == SaidBy(buffered, ids)
  {
    hide Said;
    if ids != [] {
      SaidStays(buffered, ids[1..], id, b);
    }
  }

  /** Whatever is collected for a session was buffered for that session, and its texts are what was buffered. */
  lemma CollectedWasBuffered(w: World, id: Id, current: Input)
    requires RecordsTell(w) && Loadable(w.records, id)
    ensures CarriesBuffered(w, ResumeOf(w.records, id, current))
  {
    hide Said, SaidBy;
    var record := w.records[id];
    var run := RunOf(w.records, id, record);
    RunIsMaximal(w.records, id, record);
    forall i | 0 <= i < |run|
      ensures run[i] in w.records && run[i] in w.buffered && w.buffered[run[i]].session == record.session
                                   && w.records[run[i]].input == w.buffered[run[i]].input {
      assert Claims(At(w.records, id, record, run[i]), record.session);
    }
    RunWords(w.records, id);
    WordsAlongAreSaid(w.records, w.buffered, run);
    ReversedWords(w.buffered, run);
  }

  lemma RunWords(records: Records, id: Id)
    requires id in records
    requires forall i :: 0 <= i < |RunOf(records, id, records[id])| ==> RunOf(records, id, records[id])[i] in records
    ensures WordsOf(records, id, records[id]) == WordsAlong(records, RunOf(records, id, records[id]))
  {
    hide Said;
    WordsFollowRun(records, id, records[id], records[id].session, {}, RESPONSE_CONTINUATION_CHAIN_LIMIT);
    RunIsMaximal(records, id, records[id]);
  }

  lemma TellsStay(buffered: map<Id, Buffered>, id: Id, b: Buffered, session: Session, ids: seq<Id>, texts: seq<string>)
    requires Tells(buffered, session, ids, texts) && id !in buffered
    ensures Tells(buffered[id := b], session, ids, texts)
  {
    SaidStays(buffered, ids, id, b);
  }

  lemma PromptStays(buffered: map<Id, Buffered>, id: Id, b: Buffered, p: Prompt)
    requires PromptTells(buffered, p) && id !in buffered
    ensures PromptTells(buffered[id := b], p)
  {
    hide Tells;
    var n :| 0 <= n <= |p.texts| && Tells(buffered, p.session, p.ids, p.texts[..n]);
    TellsStay(buffered, id, b, p.session, p.ids, p.texts[..n]);
  }

  /** The new warm session carries what it says it does. */
  lemma WarmSessionTells(w: World, id: Id, session: Session, input: Input, previous: Option<Id>)
    requires RecordsTell(w) && id !in w.buffered
    ensures var t := WarmSession(w.records, id, session, input, previous);
            Tells(w.buffered[id := Buffered(session, input)], session, t.ids, t.texts) && !t.sent
  {
    hide Said, SaidBy;
    var grown := w.buffered[id := Buffered(session, input)];
    SaidByOne(grown, id);
    if previous.Some? && Loadable(w.records, previous.value) && w.records[previous.value].session == session {
      CollectedWasBuffered(w, previous.value, Blank);
      var run := ResumeOf(w.records, previous.value, Blank);
      TellsStay(w.buffered, id, Buffered(session, input), session, run.ids, run.texts);
      SaidByConcat(grown, run.ids, [id]);
    }
  }

  lemma {:induction false} AlongSaved(records: Records, id: Id, record: Record, run: seq<Id>)
    requires id !in records && forall i :: 0 <= i < |run| ==> run[i] in records
    ensures WordsAlong(records[id := record], run) == WordsAlong(records, run)
  {
    hide Said;
    if run != [] {
      AlongSaved(records, id, record, run[1..]);
    }
  }

  lemma ShortRunIsAResume(records: Records, previous: Id, id: Id, record: Record)
    requires id !in records && Loadable(records, previous) && record.previous == Some(previous)
    requires record.pending && !record.deleted && record.session == records[previous].session
    requires |RunOf(records, previous, records[previous])| < RESPONSE_CONTINUATION_CHAIN_LIMIT
    ensures ResumeOf(records[id := record], id, Blank)
         == WarmSession(records, id, record.session, record.input, record.previous)
  {
    hide Said, WordsAlong;
    var saved, run := records[id := record], RunOf(records, previous, records[previous]);
    WarmSessionCarriesItsRun(records, previous, id, record);
    RunIsMaximal(records, previous, records[previous]);
    assert forall i :: 0 <= i < |run| ==> run[i] in records;
    RunWords(records, previous);
    RunWords(saved, id);
    AlongSaved(records, id, record, run);
    AlongOneMore(saved, id, run);
    ReversedConcat(Said(record.input), WordsAlong(records, run));
    SaidReversed(record.input);
    ReversedConcat([id], run);
    assert Reversed([id]) == [id];
  }

  /** At the limit it carries one input more, the oldest. */
  lemma FullRunIsOneMore(records: Records, previous: Id, id: Id, record: Record)
    requires id !in records && Loadable(records, previous) && record.previous == Some(previous)
    requires record.pending && !record.deleted && record.session == records[previous].session
    requires |RunOf(records, previous, records[previous])| == RESPONSE_CONTINUATION_CHAIN_LIMIT
    ensures WarmSession(records, id, record.session, record.input, record.previous).ids
         == [RunOf(records, previous, records[previous])[RESPONSE_CONTINUATION_CHAIN_LIMIT - 1]]
            + ResumeOf(records[id := record], id, Blank).ids
  {
    WarmSessionCarriesItsRun(records, previous, id, record);
    NewestOfFull(id, RunOf(records, previous, records[previous]));
    hide Said, RunOf, Reversed, Newest, WordsOf;
  }

  lemma NewestOfFull(id: Id, run: seq<Id>)
    requires |run| == RESPONSE_CONTINUATION_CHAIN_LIMIT
    ensures Reversed(run) + [id] == [run[RESPONSE_CONTINUATION_CHAIN_LIMIT - 1]] + Reversed(Newest([id] + run))
  {
    OldestFirst([id] + run);
    ReversedConcat([id], run);
    assert Reversed([id]) == [id];
    hide Reversed;
  }

  lemma OldestFirst(s: seq<Id>)
    requires s != []
    ensures Reversed(s) == [s[|s| - 1]] + Reversed(s[..|s| - 1])
  {
    var n := |s| - 1;
    assert s == s[..n] + [s[n]];
    assert Reversed([s[n]]) == [s[n]];
    hide Reversed;
    ReversedConcat(s[..n], [s[n]]);
  }

  /**
   A warm session on top of another carries what a resume of its record would collect,
   inputs and texts, exactly if the run it was resumed on is below the chain limit.
   */
  lemma WarmSessionIsAResumeExactlyIf(records: Records, previous: Id, id: Id, record: Record)
    requires id !in records && Loadable(records, previous) && record.previous == Some(previous)
    requires record.pending && !record.deleted && record.session == records[previous].session
    ensures var resumed, warm := ResumeOf(records[id := record], id, Blank),
                                 WarmSession(records, id, record.session, record.input, record.previous);
            && (resumed == warm <==> |RunOf(records, previous, records[previous])| < RESPONSE_CONTINUATION_CHAIN_LIMIT)
            && (resumed.ids == warm.ids <==> resumed == warm)
  {
    RunIsMaximal(records, previous, records[previous]);
    hide *;
    if |RunOf(records, previous, records[previous])| < RESPONSE_CONTINUATION_CHAIN_LIMIT {
      ShortRunIsAResume(records, previous, id, record);
    } else {
      FullRunIsOneMore(records, previous, id, record);
    }
  }

  lemma AlongOneMore(records: Records, id: Id, run: seq<Id>)
    requires id in records && forall i :: 0 <= i < |run| ==> run[i] in records
    ensures WordsAlong(records, [id] + run) == Said(records[id].input) + WordsAlong(records, run)
  {
    assert ([id] + run)[1..] == run;
  }

  lemma InvSaveWarm(w: World, id: Id, session: Session, input: Input, previous: Option<Id>)
    requires Inv(w)
    ensures Inv(Next(w, SaveWarm(id, session, input, previous)))
  {
    hide Tells, PromptTells, WarmSession;
    if id !in w.buffered && id !in w.records {
      var b := Buffered(session, input);
      WarmSessionTells(w, id, session, input, previous);
      forall t: Turn | Tells(w.buffered, t.session, t.ids, t.texts)
        ensures Tells(w.buffered[id := b], t.session, t.ids, t.texts) {
        TellsStay(w.buffered, id, b, t.session, t.ids, t.texts);
      }
      forall k | 0 <= k < |w.sends| ensures PromptTells(w.buffered[id := b], w.sends[k]) {
        PromptStays(w.buffered, id, b, w.sends[k]);
      }
      WarmSessionIsOf(w.records, id, session, input, previous);
    }
  }

  lemma WarmSessionIsOf(records: Records, id: Id, session: Session, input: Input, previous: Option<Id>)
    ensures WarmSession(records, id, session, input, previous).session == session
  {
  }

  lemma InvSaveTurn(w: World, id: Id, session: Session, input: Input, previous: Option<Id>)
    requires Inv(w)
    ensures Inv(Next(w, SaveTurn(id, session, input, previous)))
  {
    hide Tells, PromptTells;
  }

  lemma InvResume(w: World, turn: nat, id: Id, current: Input)
    requires Inv(w)
    ensures Inv(Next(w, PrepareResume(turn, id, current)))
  {
    hide Tells, PromptTells, ResumeOf;
    if Loadable(w.records, id) { CollectedWasBuffered(w, id, current); }
  }

  lemma InvPrepareWarm(w: World, turn: nat, id: Id, current: Input)
    requires Inv(w)
    ensures Inv(Next(w, PrepareWarm(turn, id, current)))
  {
    hide Tells, PromptTells;
  }

  lemma SentPromptTells(buffered: map<Id, Buffered>, t: Turn)
    requires Tells(buffered, t.session, t.ids, t.texts)
    ensures PromptTells(buffered, PromptOf(t))
  {
    hide Tells, Said;
    assert (t.texts + Said(t.current))[..|t.texts|] == t.texts;
  }

  lemma InvSend(w: World, turn: nat)
    requires Inv(w)
    ensures Inv(Next(w, Send(turn))) && Inv(Next(w, FailSend(turn)))
  {
    hide Tells, PromptTells, Said;
    if turn in w.turns {
      var t, v := w.turns[turn], Next(w, Send(turn));
      SentPromptTells(w.buffered, t);
      forall k | 0 <= k < |v.sends| ensures PromptTells(v.buffered, v.sends[k]) {
        if k < |w.sends| { assert v.sends[k] == w.sends[k]; }
      }
      forall d | d in v.delivered ensures WasSent(v.sends, d.0, d.1) {
        if d in w.delivered {
          var k :| 0 <= k < |w.sends| && w.sends[k].session == d.0 && d.1 in w.sends[k].ids;
          assert v.sends[k] == w.sends[k];
        } else {
          assert v.sends[|w.sends|] == PromptOf(t);
        }
      }
    }
  }

  lemma InvClear(w: World, turn: nat, id: Id)
    requires Inv(w)
    ensures Inv(Next(w, Clear(turn, id)))
  {
    hide PromptTells, SaidBy, WasSent;
  }

  lemma InvDelete(w: World, id: Id)
    requires Inv(w)
    ensures Inv(Next(w, Delete(id))) && Inv(Next(w, Prune(id))) && Inv(Next(w, Crash))
  {
    hide Tells, PromptTells, WasSent;
  }

  lemma InvStep(w: World, step: Step)
    requires Inv(w)
    ensures Inv(Next(w, step))
  {
    hide Inv, Next;
    match step {
      case SaveWarm(id, session, input, previous) => InvSaveWarm(w, id, session, input, previous);
      case SaveTurn(id, session, input, previous) => InvSaveTurn(w, id, session, input, previous);
      case PrepareResume(turn, id, current) => InvResume(w, turn, id, current);
      case PrepareWarm(turn, id, current) => InvPrepareWarm(w, turn, id, current);
      case Send(turn) => InvSend(w, turn);
      case FailSend(turn) => InvSend(w, turn);
      case Clear(turn, id) => InvClear(w, turn, id);
      case Delete(id) => InvDelete(w, id);
      case Prune(id) => InvDelete(w, id);
      case Crash => InvDelete(w, 0);
    }
  }

  lemma {:induction false} InvRun(w: World, steps: seq<Step>)
    requires Inv(w)
    ensures Inv(Run(w, steps))
    decreases |steps|
  {
    hide Inv, Next;
    if steps != [] {
      InvStep(w, steps[0]);
      InvRun(Next(w, steps[0]), steps[1..]);
    }
  }

  lemma InvStart()
    ensures Inv(Start())
  {
  }

  /**
   Over every run, with crashes anywhere: a stored warm record that no longer claims
   its input had that input sent to its own session, in a prompt that starts with the
   texts of all the inputs it settles.
   */
  lemma SettledInputWasDelivered(steps: seq<Step>, id: Id)
    ensures var w := Run(Start(), steps);
            id in w.records && !w.records[id].deleted && id in w.buffered && !w.records[id].pending ==>
              && w.records[id].input == w.buffered[id].input
              && exists k :: 0 <= k < |w.sends| && w.sends[k].session == w.records[id].session && id in w.sends[k].ids
                             && PromptTells(w.buffered, w.sends[k])
  {
    hide PromptTells;
    InvStart();
    InvRun(Start(), steps);
    var w := Run(Start(), steps);
    if id in w.records && !w.records[id].deleted && id in w.buffered && !w.records[id].pending {
      assert WasSent(w.sends, (w.records[id].session, id).0, (w.records[id].session, id).1);
    }
  }

  lemma {:induction false} TurnStaysPrepared(w: World, steps: seq<Step>, turn: nat)
    requires turn in w.turns
    requires forall i :: 0 <= i < |steps| ==> steps[i] != Crash && steps[i] != FailSend(turn)
    ensures var u := Run(w, steps);
            turn in u.turns && u.turns[turn] == w.turns[turn].(sent := u.turns[turn].sent)
    decreases |steps|
  {
    hide ClearInputPending, PromptOf, WarmSession, ResumeOf;
    if steps != [] {
      assert steps[0] != Crash && steps[0] != FailSend(turn);
      TurnStaysPrepared(Next(w, steps[0]), steps[1..], turn);
    }
  }

  /**
   Whatever happens between, a turn's prompt is what its buffered inputs say and then
   what its own request says, and goes to the session it was prepared for.
   */
  lemma PromptEndsWithItsTurn(w: World, prepare: Step, id: Id, steps: seq<Step>, turn: nat, current: Input)
    requires Inv(w) && turn !in w.turns
    requires || (prepare == PrepareResume(turn, id, current) && Loadable(w.records, id))
             || (prepare == PrepareWarm(turn, id, current) && id in w.warm)
    requires forall i :: 0 <= i < |steps| ==> steps[i] != Crash && steps[i] != FailSend(turn)
    ensures var u := Run(Next(w, prepare), steps);
            var sends := Next(u, Send(turn)).sends;
            && |sends| == |u.sends| + 1 && u.sends <= sends
            && (forall i :: 0 <= i < |sends[|u.sends|].ids| ==> sends[|u.sends|].ids[i] in u.buffered)
            && sends[|u.sends|].texts ==
               SaidBy(u.buffered, sends[|u.sends|].ids) + (match current case Blank => [] case Words(text) => [text])
            && sends[|u.sends|].session == if prepare.PrepareResume? then w.records[id].session else w.warm[id].session
  {
    hide SaidBy, Reversed, RunOf, WordsOf;
    var v := Next(w, prepare);
    InvStep(w, prepare);
    InvRun(v, steps);
    TurnStaysPrepared(v, steps, turn);
    var u := Run(v, steps);
    assert CarriesBuffered(u, u.turns[turn]);
  }

  /** Input not delivered is still claimed: a crash before the send loses nothing that is stored. */
  lemma UndeliveredInputStaysClaimed(steps: seq<Step>, id: Id)
    ensures var w := Run(Start(), steps);
            id in w.records && !w.records[id].deleted && id in w.buffered
              && (w.buffered[id].session, id) !in w.delivered ==>
              w.records[id].pending && id in RunOf(w.records, id, w.records[id])
  {
    InvStart();
    InvRun(Start(), steps);
  }

  /** Sent, then crashed before the claim was cleared: the input is sent again, so delivery is at least once only. */
  lemma CrashAfterSendRepeats(w: World, turn: nat, id: Id, current: Input)
    requires Inv(w) && turn in w.turns && id in w.turns[turn].ids
    requires Loadable(w.records, id) && w.records[id].pending
    ensures var restarted := Next(Next(w, Send(turn)), Crash);
            var again := Next(restarted, PrepareResume(turn, id, current));
            && (w.records[id].session, id) in restarted.delivered
            && turn in again.turns && !again.turns[turn].sent && id in again.turns[turn].ids
  {
    hide SaidBy, PromptTells, WordsOf;
    var run := RunOf(w.records, id, w.records[id]);
    assert run[0] == id;
    assert Reversed(run)[|run| - 1] == id;
  }

  // ---- Claims behind the limit ---------------------------------------------------------

  function ClearAll(records: Records, ids: seq<Id>): Records {
    if ids == [] then records else ClearInputPending(ClearAll(records, ids[..|ids| - 1]), ids[|ids| - 1])
  }

  lemma {:induction false} ClearedAll(records: Records, ids: seq<Id>, x: Id)
    ensures var cleared := ClearAll(records, ids);
            && (x in cleared <==> x in records)
            && (x in records ==> cleared[x] == if x in ids && !records[x].deleted then records[x].(pending := false)
                else records[x])
  {
    if ids != [] {
      ClearedAll(records, ids[..|ids| - 1], x);
      ClearedAll(records, ids[..|ids| - 1], ids[|ids| - 1]);
      assert ids == ids[..|ids| - 1] + [ids[|ids| - 1]];
    }
  }

  /**
   Once a turn has settled the run it carried, nothing is collected from any record of
   that run any more, so a claim that lay behind the limit still stands and is no
   longer reached from there.
   */
  lemma ClaimsBehindTheLimitAreLeft(records: Records, id: Id, x: Id)
    requires Loadable(records, id) && x !in RunOf(records, id, records[id]) && Loadable(records, x)
      && records[x].pending
    ensures var run := RunOf(records, id, records[id]);
            var settled := ClearAll(records, run);
            && Loadable(settled, x) && settled[x].pending
            && forall i :: 0 <= i < |run| ==> Loadable(settled, run[i]) && RunOf(settled, run[i], settled[run[i]]) == []
  {
    var run := RunOf(records, id, records[id]);
    ClearedAll(records, run, x);
    RunIsMaximal(records, id, records[id]);
    forall i | 0 <= i < |run|
      ensures Loadable(ClearAll(records, run), run[i]) && !ClearAll(records, run)[run[i]].pending {
      ClearedAll(records, run, run[i]);
    }
  }

  /** The store's side, one claim after another; a crash may stop it after any of them. */
  class Store {
    var records: Records

    constructor (records: Records)
      ensures this.records == records
    {
      this.records := records;
    }

    method ClearClaim(id: Id)
      modifies this
      ensures records == ClearInputPending(old(records), id)
    {
      if id !in records || records[id].deleted {
        return;
      }
      if !records[id].pending {
        return;
      }
      records := records[id := records[id].(pending := false)];
    }

    method MarkPendingInputDelivered(ids: seq<Id>)
      modifies this
      ensures records.Keys == old(records).Keys
      ensures forall id :: id in records ==>
        records[id] == if id in ids && !old(records)[id].deleted then old(records)[id].(pending := false)
          else old(records)[id]
    {
      for i := 0 to |ids|
        invariant records.Keys == old(records).Keys
        invariant forall id :: id in records ==>
          records[id] == if id in ids[..i] && !old(records)[id].deleted then old(records)[id].(pending := false)
            else old(records)[id]
      {
        ClearClaim(ids[i]);
      }
    }
  }
}
