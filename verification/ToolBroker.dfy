/**
 The broker that leads a client's outputs to the batch that waits for them
 (internal/toolproxy/toolproxy.go, Broker): batches are registered by their calls,
 found by a call's id, forgotten when they close, and all cancelled on shutdown.

 Registering checks the batch first and enters it later, so either may race a close or
 the shutdown; each lock section is one step. Call ids are never shared by two batches.
 */
module ToolBroker {
  import opened Common

  type BatchId = nat
  type CallId = nat

  /** What the broker's mutex guards. */
  datatype Tables = Tables(batches: set<BatchId>, byCall: map<CallId, BatchId>, closed: bool) {

    /** An id leads to an open batch. */
    predicate Live(open: set<BatchId>, id: CallId) {
      id in byCall && byCall[id] in open
    }
  }

  function Entries(ids: set<CallId>, batch: BatchId): map<CallId, BatchId> {
    map id | id in ids :: batch
  }

  /** The entry of a registration, unless the broker is closed. */
  function Enter(t: Tables, batch: BatchId, ids: set<CallId>): Tables {
    if t.closed then t else t.(batches := t.batches + {batch}, byCall := t.byCall + Entries(ids, batch))
  }

  /** Of the ids, only entries that still lead to the batch are dropped. */
  function Drop(t: Tables, batch: BatchId, ids: set<CallId>): Tables {
    t.(batches := t.batches - {batch},
       byCall := map id | id in t.byCall && !(id in ids && t.byCall[id] == batch) :: t.byCall[id])
  }

  function ShutDown(t: Tables): Tables {
    Tables({}, map[], true)
  }

  // ---- The protocol ------------------------------------------------------------

  /**
   The tables; the batches, the open ones and their calls; and who is between two
   sections: registering a batch seen open, with its calls listed or not yet, or about to
   cancel a batch the closed broker refused or the shutdown found. `known` and `entered`
   are all batches and pairs ever brought to it.
   */
  datatype Broker = Broker(
    t: Tables,
    created: set<BatchId>,
    open: set<BatchId>,
    owns: map<CallId, BatchId>,
    seenOpen: set<BatchId>,
    registering: set<(BatchId, set<CallId>)>,
    cancelling: set<BatchId>,
    known: set<BatchId>,
    entered: set<(CallId, BatchId)>)

  function Start(): Broker {
    Broker(Tables({}, map[], false), {}, {}, map[], {}, {}, {}, {}, {})
  }

  function NewBatch(b: Broker, batch: BatchId): Broker {
    if batch in b.created then b else b.(created := b.created + {batch}, open := b.open + {batch})
  }

  function AddCall(b: Broker, batch: BatchId, id: CallId): Broker {
    if batch !in b.created || id in b.owns then b else b.(owns := b.owns[id := batch])
  }

  function CallsOf(b: Broker, batch: BatchId): set<CallId> {
    set id | id in b.owns && b.owns[id] == batch
  }

  /** A registration goes on with an open batch only, */
  function BeginRegister(b: Broker, batch: BatchId): Broker {
    if batch !in b.open then b else b.(seenOpen := b.seenOpen + {batch})
  }

  /** then lists its calls, those added since included, whether or not it is still open. */
  function ListCalls(b: Broker, batch: BatchId): Broker {
    if batch !in b.seenOpen then b else b.(registering := b.registering + {(batch, CallsOf(b, batch))})
  }

  /** It enters them later; if the broker closed meanwhile, the batch is cancelled instead. */
  function FinishRegister(b: Broker, batch: BatchId, ids: set<CallId>): Broker {
    if (batch, ids) !in b.registering then b
    else
      b.(t := Enter(b.t, batch, ids), registering := b.registering - {(batch, ids)}, known := b.known + {batch},
         cancelling := if b.t.closed then b.cancelling + {batch} else b.cancelling,
         entered := if b.t.closed then b.entered else b.entered + set id | id in ids :: (id, batch))
  }

  /** A batch closes, by completion, expiry or cancellation. */
  function Close(b: Broker, batch: BatchId): Broker {
    b.(open := b.open - {batch})
  }

  /** Whoever finds a batch closed removes it, with the calls it had when they were listed. */
  function Remove(b: Broker, batch: BatchId, ids: set<CallId>): Broker {
    if batch in b.open || !(ids <= CallsOf(b, batch)) then b else b.(t := Drop(b.t, batch, ids))
  }

  function CancelAll(b: Broker): Broker {
    b.(t := ShutDown(b.t), cancelling := b.cancelling + b.t.batches)
  }

  function Cancel(b: Broker, batch: BatchId): Broker {
    if batch !in b.cancelling then b else Close(b.(cancelling := b.cancelling - {batch}), batch)
  }

  datatype Step =
    | DoNew(batch: BatchId) | DoAdd(batch: BatchId, id: CallId)
    | DoBegin(batch: BatchId) | DoList(batch: BatchId) | DoFinish(batch: BatchId, ids: set<CallId>)
    | DoClose(batch: BatchId) | DoRemove(batch: BatchId, ids: set<CallId>)
    | DoCancelAll | DoCancel(batch: BatchId)

  function Next(b: Broker, step: Step): Broker {
    match step
    case DoNew(batch) => NewBatch(b, batch)
    case DoAdd(batch, id) => AddCall(b, batch, id)
    case DoBegin(batch) => BeginRegister(b, batch)
    case DoList(batch) => ListCalls(b, batch)
    case DoFinish(batch, ids) => FinishRegister(b, batch, ids)
    case DoClose(batch) => Close(b, batch)
    case DoRemove(batch, ids) => Remove(b, batch, ids)
    case DoCancelAll => CancelAll(b)
    case DoCancel(batch) => Cancel(b, batch)
  }

  function Run(b: Broker, steps: seq<Step>): Broker
    decreases |steps|
  {
    if steps == [] then b else Run(Next(b, steps[0]), steps[1..])
  }

  // ---- What every step keeps ---------------------------------------------------

  /** Entries lead to the batch that holds the call. */
  ghost predicate LeadsHome(b: Broker) {
    && (forall id :: id in b.owns ==> b.owns[id] in b.created)
    && (forall id :: id in b.t.byCall ==> id in b.owns && b.owns[id] == b.t.byCall[id])
    && (forall id, batch :: (id, batch) in b.entered ==> id in b.owns && b.owns[id] == batch)
    && (forall batch, ids, id :: (batch, ids) in b.registering && id in ids ==> id in b.owns && b.owns[id] == batch)
  }

  /** An open batch that was entered can be found by its calls, until the shutdown. */
  ghost predicate Findable(b: Broker) {
    forall id, batch :: (id, batch) in b.entered && batch in b.open && !b.t.closed ==>
      id in b.t.byCall && b.t.byCall[id] == batch
  }

  /** An open batch the broker got to know is in its table, or somebody is about to cancel it. */
  ghost predicate Accounted(b: Broker) {
    && b.open <= b.created && b.known <= b.created && b.seenOpen <= b.created
    && (forall batch, ids :: (batch, ids) in b.registering ==> batch in b.created)
    && (forall batch :: batch in b.known && batch in b.open ==> batch in b.t.batches + b.cancelling)
    && (b.t.closed ==> b.t.batches == {} && b.t.byCall == map[])
  }

  ghost predicate Inv(b: Broker) {
    LeadsHome(b) && Findable(b) && Accounted(b)
  }

  lemma InvNew(b: Broker, batch: BatchId, id: CallId)
    requires Inv(b)
    ensures Inv(NewBatch(b, batch)) && Inv(AddCall(b, batch, id))
  {
  }

  lemma InvBegin(b: Broker, batch: BatchId)
    requires Inv(b)
    ensures Inv(BeginRegister(b, batch)) && Inv(ListCalls(b, batch))
  {
  }

  lemma InvFinish(b: Broker, batch: BatchId, ids: set<CallId>)
    requires Inv(b)
    ensures Inv(FinishRegister(b, batch, ids))
  {
    var finished := FinishRegister(b, batch, ids);
    assert LeadsHome(finished) by {
      hide Findable, Accounted;
    }
    assert Findable(finished) by {
      hide Accounted;
    }
    assert Accounted(finished) by {
      hide Findable, LeadsHome;
    }
  }

  lemma InvClose(b: Broker, batch: BatchId)
    requires Inv(b)
    ensures Inv(Close(b, batch)) && Inv(Cancel(b, batch))
  {
  }

  lemma InvRemove(b: Broker, batch: BatchId, ids: set<CallId>)
    requires Inv(b)
    ensures Inv(Remove(b, batch, ids)) && Inv(CancelAll(b))
  {
  }

  lemma InvStep(b: Broker, step: Step)
    requires Inv(b)
    ensures Inv(Next(b, step))
  {
    hide Inv;
    match step {
      case DoNew(batch) => InvNew(b, batch, 0);
      case DoAdd(batch, id) => InvNew(b, batch, id);
      case DoBegin(batch) => InvBegin(b, batch);
      case DoList(batch) => InvBegin(b, batch);
      case DoFinish(batch, ids) => InvFinish(b, batch, ids);
      case DoClose(batch) => InvClose(b, batch);
      case DoRemove(batch, ids) => InvRemove(b, batch, ids);
      case DoCancelAll => InvRemove(b, 0, {});
      case DoCancel(batch) => InvClose(b, batch);
    }
  }

  lemma {:induction false} InvRun(b: Broker, steps: seq<Step>)
    requires Inv(b)
    ensures Inv(Run(b, steps))
    decreases |steps|
  {
    hide Inv, Next;
    if steps != [] {
      InvStep(b, steps[0]);
      InvRun(Next(b, steps[0]), steps[1..]);
    }
  }

  lemma InvStart()
    ensures Inv(Start())
  {
  }

  // ---- What follows --------------------------------------------------------------

  /**
   After a shutdown, once its cancellations and those of the registrations it overtook
   are done, every batch ever brought to the broker is closed, whenever it registered.
   */
  lemma ShutdownClosesEveryBatch(steps: seq<Step>, batch: BatchId)
    ensures var b := Run(Start(), steps); b.t.closed && b.cancelling == {} && batch in b.known ==> batch !in b.open
  {
    InvStart();
    InvRun(Start(), steps);
  }

  /** Until then an open batch is found by every call it was registered with, and no id leads to another's batch. */
  lemma OpenBatchIsFound(steps: seq<Step>, id: CallId, batch: BatchId)
    ensures var b := Run(Start(), steps); (id, batch) in b.entered && batch in b.open && !b.t.closed ==>
      b.t.Live(b.open, id) && b.t.byCall[id] == batch
    ensures var b := Run(Start(), steps); b.t.Live(b.open, id) ==> id in b.owns && b.owns[id] == b.t.byCall[id]
  {
    InvStart();
    InvRun(Start(), steps);
  }

  /** The tables may keep a closed batch: it closed, and was removed, between the sections of a registration. */
  lemma ClosedBatchMayStay()
    ensures exists steps :: var b := Run(Start(), steps); 0 in b.t.byCall && b.t.byCall[0] !in b.open
  {
    var end := [DoClose(0), DoRemove(0, {0}), DoFinish(0, {0})];
    var steps := [DoNew(0), DoAdd(0, 0), DoBegin(0), DoList(0)] + end;
    var b := AddCall(NewBatch(Start(), 0), 0, 0);
    assert CallsOf(b, 0) == {0};
    var listed := ListCalls(BeginRegister(b, 0), 0);
    var removed := Remove(Close(listed, 0), 0, {0});
    assert (0, {0}) in removed.registering;
    calc {
      Run(Start(), steps);
      { assert steps[1..] == [DoAdd(0, 0), DoBegin(0), DoList(0)] + end; }
      Run(NewBatch(Start(), 0), [DoAdd(0, 0), DoBegin(0), DoList(0)] + end);
      { assert ([DoAdd(0, 0), DoBegin(0), DoList(0)] + end)[1..] == [DoBegin(0), DoList(0)] + end; }
      Run(b, [DoBegin(0), DoList(0)] + end);
      { assert ([DoBegin(0), DoList(0)] + end)[1..] == [DoList(0)] + end; }
      Run(BeginRegister(b, 0), [DoList(0)] + end);
      { assert ([DoList(0)] + end)[1..] == end; }
      Run(listed, end);
      { assert end[1..] == [DoRemove(0, {0}), DoFinish(0, {0})]; }
      Run(Close(listed, 0), [DoRemove(0, {0}), DoFinish(0, {0})]);
      Run(removed, [DoFinish(0, {0})]);
      FinishRegister(removed, 0, {0});
    }
  }

  // ---- The broker itself -----------------------------------------------------------

  datatype Found = NotFound | Ambiguous | Batch(batch: BatchId, matched: seq<CallId>)

  /** The id leads to a batch that was open when asked for it. */
  predicate LiveAt(t: Tables, ids: seq<CallId>, isOpen: seq<bool>, i: nat)
    requires i < |ids| == |isOpen|
  {
    ids[i] in t.byCall && isOpen[i]
  }

  /** Of the first `n` ids those that lead to an open batch, in their order. */
  function LiveIds(t: Tables, ids: seq<CallId>, isOpen: seq<bool>, n: nat): (live: seq<CallId>)
    requires n <= |ids| == |isOpen|
    ensures forall id :: id in live <==> exists i :: 0 <= i < n && LiveAt(t, ids, isOpen, i) && ids[i] == id
  {
    if n == 0 then []
    else LiveIds(t, ids, isOpen, n - 1) + if LiveAt(t, ids, isOpen, n - 1) then [ids[n - 1]] else []
  }

  /** The first `n` ids, so far as they lead anywhere, all lead to one batch. */
  predicate OneBatch(t: Tables, ids: seq<CallId>, isOpen: seq<bool>, n: nat)
    requires n <= |ids| == |isOpen|
  {
    forall i, j :: 0 <= i < j < n && LiveAt(t, ids, isOpen, i) && LiveAt(t, ids, isOpen, j) ==>
      t.byCall[ids[i]] == t.byCall[ids[j]]
  }

  /** The id leads to `batch`, which was closed when asked for it. */
  predicate AnswersClosed(t: Tables, ids: seq<CallId>, isOpen: seq<bool>, i: nat, batch: BatchId)
    requires i < |ids| == |isOpen|
  {
    ids[i] in t.byCall && t.byCall[ids[i]] == batch && !isOpen[i]
  }

  class CallBroker {
    var batches: set<BatchId>
    var byCall: map<CallId, BatchId>
    var closed: bool

    function State(): Tables
      reads this
    {
      Tables(batches, byCall, closed)
    }

    constructor ()
      ensures State() == Start().t
    {
      batches, byCall, closed := {}, map[], false;
    }

    /** The last section of a registration; a refused batch is cancelled by the caller. */
    method Register(batch: BatchId, ids: set<CallId>) returns (refused: bool)
      modifies this
      ensures State() == Enter(old(State()), batch, ids)
      ensures refused == old(closed)
    {
      if closed {
        return true;
      }
      batches := batches + {batch};
      byCall := byCall + Entries(ids, batch);
      refused := false;
    }

    method Remove(batch: BatchId, ids: set<CallId>)
      modifies this
      ensures State() == Drop(old(State()), batch, ids)
    {
      batches := batches - {batch};
      byCall := map id | id in byCall && !(id in ids && byCall[id] == batch) :: byCall[id];
    }

    method CancelAll() returns (found: set<BatchId>)
      modifies this
      ensures State() == ShutDown(old(State()))
      ensures found == old(batches)
    {
      found := batches;
      batches, byCall, closed := {}, map[], true;
    }

    /**
     All ids, or any of them: the one open batch they lead to, with those that lead there.
     None if all are required and one leads nowhere, or if all lead nowhere; ambiguous if
     they lead to two. `isOpen` is what each id's batch answers when it is asked; batches
     found closed are to be removed behind it.
     */
    method FindByCallIDs(ids: seq<CallId>, isOpen: seq<bool>, requireAll: bool)
      returns (found: Found, stale: set<BatchId>)
      requires |ids| == |isOpen|
      ensures found.Batch? <==>
        && LiveIds(State(), ids, isOpen, |ids|) != [] && OneBatch(State(), ids, isOpen, |ids|)
        && (requireAll ==> forall i :: 0 <= i < |ids| ==> LiveAt(State(), ids, isOpen, i))
      ensures found.Batch? ==> found.matched == LiveIds(State(), ids, isOpen, |ids|)
      ensures found.Batch? ==> forall id :: id in found.matched ==> id in byCall && byCall[id] == found.batch
      ensures found.NotFound? ==>
        || LiveIds(State(), ids, isOpen, |ids|) == []
        || (requireAll && exists i :: 0 <= i < |ids| && !LiveAt(State(), ids, isOpen, i))
      ensures forall batch :: batch in stale ==>
        exists i :: 0 <= i < |ids| && AnswersClosed(State(), ids, isOpen, i, batch)
    {
      var batch: Option<BatchId>, matched := None, [];
      stale := {};
      for i := 0 to |ids|
        invariant matched == LiveIds(State(), ids, isOpen, i) && OneBatch(State(), ids, isOpen, i)
        invariant forall id :: id in matched ==> batch == Some(byCall[id])
        invariant batch.Some? <==> matched != []
        invariant requireAll ==> forall j :: 0 <= j < i ==> LiveAt(State(), ids, isOpen, j)
        invariant forall b :: b in stale ==> exists j :: 0 <= j < |ids| && AnswersClosed(State(), ids, isOpen, j, b)
      {
        var id := ids[i];
        if id !in byCall {
          if requireAll {
            assert !LiveAt(State(), ids, isOpen, i);
            return NotFound, stale;
          }
          continue;
        }
        if !isOpen[i] {
          assert AnswersClosed(State(), ids, isOpen, i, byCall[id]);
          stale := stale + {byCall[id]};
          if requireAll {
            assert !LiveAt(State(), ids, isOpen, i);
            return NotFound, stale;
          }
          continue;
        }
        if batch.Some? && batch.value != byCall[id] {
          assert matched[0] in matched && LiveAt(State(), ids, isOpen, i);
          return Ambiguous, stale;
        }
        batch := Some(byCall[id]);
        matched := matched + [id];
      }
      found := if batch.None? then NotFound else Batch(batch.value, matched);
    }
  }
}
