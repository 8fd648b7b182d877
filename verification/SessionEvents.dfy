/**
 The event sink between the SDK read loop and the turn runner
 (internal/copilotgw/session_events.go).

 The sender, the flusher goroutine, the consumer and the consumer's liveness
 channel are interleaved freely. `Step` names one lock section or one channel
 operation; a run is any sequence of steps, and a step that is not enabled does
 nothing.
 */
module SessionEvents {
  import opened Common

  const CHANNEL_CAPACITY := 256
  const OVERFLOW_LIMIT := 1024

  /** An SDK session event; the sink never looks inside one, so an identity is enough. */
  type Event = nat

  /** What travels through the sink: an SDK event, or the terminal overflow error. */
  datatype Item = Sdk(event: Event) | OverflowError

  /**
   The sink's fields, followed by its history: every event offered, how many of
   them were refused, what the consumer read, and what a finished consumer made
   the sink abandon.
   */
  datatype Sink = Sink(
    channel: seq<Item>,
    pending: seq<Item>,
    inFlight: Option<Item>,
    attached: bool,
    finished: bool,
    flushing: bool,
    stopped: bool,
    dropped: nat,
    sent: seq<Item>,
    refused: nat,
    consumed: seq<Item>,
    lost: seq<Item>,
    overflowed: bool)

  datatype Step = Attach | Send(event: Event) | Take | Publish | Abandon | Consume | Finish

  function Init(): Sink {
    Sink([], [], None, false, false, false, false, 0, [], 0, [], [], false)
  }

  function StartFlush(s: Sink): Sink {
    s.(flushing := s.flushing || (s.attached && |s.pending| > 0))
  }

  function AfterAttach(s: Sink): Sink {
    StartFlush(s.(attached := true))
  }

  predicate PublishesDirectly(s: Sink) {
    !s.flushing && |s.pending| == 0 && |s.channel| < CHANNEL_CAPACITY
  }

  function AfterSend(s: Sink, e: Event): Sink {
    var t := s.(sent := s.sent + [Sdk(e)]);
    if s.stopped then
      t.(dropped := s.dropped + 1, refused := s.refused + 1)
    else if PublishesDirectly(s) then
      t.(channel := s.channel + [Sdk(e)])
    else if |s.pending| < OVERFLOW_LIMIT then
      StartFlush(t.(pending := s.pending + [Sdk(e)]))
    else
      StartFlush(t.(stopped := true, dropped := s.dropped + 1, refused := s.refused + 1,
                    overflowed := true, pending := s.pending + [OverflowError]))
  }

  /** The flusher's lock section: dequeue one item, or end the flusher. */
  function AfterTake(s: Sink): Sink {
    if !s.flushing || s.inFlight.Some? then s
    else if s.pending == [] then s.(flushing := false)
    else s.(inFlight := Some(s.pending[0]), pending := s.pending[1..])
  }

  function AfterPublish(s: Sink): Sink {
    if s.inFlight.None? || |s.channel| >= CHANNEL_CAPACITY then s
    else s.(channel := s.channel + [s.inFlight.value], inFlight := None)
  }

  /** The flusher observed the consumer's exit while holding an item. */
  function AfterAbandon(s: Sink): Sink {
    if s.inFlight.None? || !s.finished then s
    else s.(pending := [], inFlight := None, flushing := false, stopped := true,
            dropped := s.dropped + 1 + |s.pending|, lost := Held(s) + s.pending + s.lost)
  }

  function AfterConsume(s: Sink): Sink {
    if s.channel == [] || s.finished then s
    else s.(channel := s.channel[1..], consumed := s.consumed + [s.channel[0]])
  }

  function Next(s: Sink, step: Step): Sink {
    match step
    case Attach => AfterAttach(s)
    case Send(e) => AfterSend(s, e)
    case Take => AfterTake(s)
    case Publish => AfterPublish(s)
    case Abandon => AfterAbandon(s)
    case Consume => AfterConsume(s)
    case Finish => if s.attached then s.(finished := true) else s
  }

  function Run(s: Sink, steps: seq<Step>): Sink
    decreases |steps|
  {
    if steps == [] then s else Run(Next(s, steps[0]), steps[1..])
  }

  function Held(s: Sink): seq<Item> {
    if s.inFlight.Some? then [s.inFlight.value] else []
  }

  function Synthetic(s: Sink): seq<Item> {
    if s.overflowed then [OverflowError] else []
  }

  /** Everything that ever reached the channel, in order. */
  function Published(s: Sink): seq<Item> {
    s.consumed + s.channel
  }

  /** Everything the sink accepted, wherever it is now, in order. */
  function Accepted(s: Sink): seq<Item> {
    s.consumed + (s.channel + (Held(s) + (s.pending + s.lost)))
  }

  ghost predicate Counts(s: Sink) {
    && |s.channel| <= CHANNEL_CAPACITY
    && |s.pending| <= OVERFLOW_LIMIT + |Synthetic(s)|
    && s.refused <= |s.sent|
    && s.dropped == s.refused + |s.lost|
  }

  ghost predicate Flags(s: Sink) {
    && (s.inFlight.Some? ==> s.flushing)
    && (s.flushing ==> s.attached)
    && (s.attached && s.pending != [] ==> s.flushing)
    && (s.stopped <==> s.overflowed || s.lost != [])
    && (s.lost != [] ==> s.finished && s.pending == [] && s.inFlight.None?)
    && (!s.stopped ==> s.refused == 0)
  }

  ghost predicate InOrder(s: Sink)
    requires s.refused <= |s.sent|
  {
    Accepted(s) == s.sent[..|s.sent| - s.refused] + Synthetic(s)
  }

  ghost predicate Inv(s: Sink) {
    Counts(s) && Flags(s) && InOrder(s)
  }

  lemma InvInit()
    ensures Inv(Init())
  {
  }

  lemma Assoc(a: seq<Item>, b: seq<Item>, c: seq<Item>)
    ensures (a + b) + c == a + (b + c)
  {
  }

  lemma Empty(a: seq<Item>)
    ensures a + [] == a && [] + a == a
  {
  }

  /** With nothing lost, a new item joins the end of the accepted sequence. */
  lemma AcceptedGrows(s: Sink, t: Sink, x: Item)
    requires s.lost == t.lost == [] && s.consumed == t.consumed && s.inFlight == t.inFlight
    requires
      || (t.channel == s.channel && t.pending == s.pending + [x])
      || (t.channel == s.channel + [x] && s.inFlight.None? && t.pending == s.pending == [])
    ensures Accepted(t) == Accepted(s) + [x]
  {
    Empty(s.pending);
    Empty(t.pending);
    if t.channel == s.channel {
      Assoc(Held(s), s.pending, [x]);
      Assoc(s.channel, Held(s) + s.pending, [x]);
      Assoc(s.consumed, s.channel + (Held(s) + s.pending), [x]);
    } else {
      Empty(s.channel);
      Empty(t.channel);
      Assoc(s.consumed, s.channel, [x]);
    }
  }

  lemma CountsSend(s: Sink, e: Event)
    requires Counts(s) && Flags(s)
    ensures Counts(AfterSend(s, e)) && Flags(AfterSend(s, e))
  {
  }

  lemma InOrderSend(s: Sink, e: Event)
    requires Inv(s)
    ensures Counts(AfterSend(s, e)) && InOrder(AfterSend(s, e))
  {
    CountsSend(s, e);
    var t := AfterSend(s, e);
    var n := |s.sent| - s.refused;
    if s.stopped {
      assert t.sent[..n] == s.sent[..n];
    } else {
      Empty(s.sent);
      assert Accepted(s) == s.sent by {
        assert s.sent[..n] == s.sent;
      }
      if PublishesDirectly(s) || |s.pending| < OVERFLOW_LIMIT {
        AcceptedGrows(s, t, Sdk(e));
        hide Accepted, Counts;
        assert t.sent[..|t.sent|] == t.sent;
        Empty(t.sent);
      } else {
        AcceptedGrows(s, t, OverflowError);
        hide Accepted, Counts;
        assert t.sent[..n] == s.sent;
      }
    }
  }

  lemma InvSend(s: Sink, e: Event)
    requires Inv(s)
    ensures Inv(AfterSend(s, e))
  {
    InOrderSend(s, e);
  }

  lemma TakeKeepsAccepted(s: Sink)
    ensures Accepted(AfterTake(s)) == Accepted(s)
  {
    if s.flushing && s.inFlight.None? && s.pending != [] {
      assert s.pending == [s.pending[0]] + s.pending[1..];
      Assoc([s.pending[0]], s.pending[1..], s.lost);
      Empty(s.pending + s.lost);
    }
  }

  lemma PublishKeepsAccepted(s: Sink)
    ensures Accepted(AfterPublish(s)) == Accepted(s)
  {
    if s.inFlight.Some? {
      Assoc(s.channel, [s.inFlight.value], s.pending + s.lost);
      Empty(s.pending + s.lost);
    }
  }

  lemma AbandonKeepsAccepted(s: Sink)
    ensures Accepted(AfterAbandon(s)) == Accepted(s)
  {
    Assoc(Held(s), s.pending, s.lost);
    Empty(Held(s) + s.pending + s.lost);
  }

  lemma ConsumeKeepsAccepted(s: Sink)
    ensures Accepted(AfterConsume(s)) == Accepted(s)
  {
    if s.channel != [] {
      var rest := Held(s) + (s.pending + s.lost);
      assert s.channel == [s.channel[0]] + s.channel[1..];
      Assoc([s.channel[0]], s.channel[1..], rest);
      Assoc(s.consumed, [s.channel[0]], s.channel[1..] + rest);
    }
  }

  /** Every step but a send only moves items along; the accepted sequence is untouched. */
  lemma MovesKeepAccepted(s: Sink, step: Step)
    requires !step.Send?
    ensures Accepted(Next(s, step)) == Accepted(s)
  {
    match step
    case Take => TakeKeepsAccepted(s);
    case Publish => PublishKeepsAccepted(s);
    case Abandon => AbandonKeepsAccepted(s);
    case Consume => ConsumeKeepsAccepted(s);
    case _ =>
  }

  lemma InvStep(s: Sink, step: Step)
    requires Inv(s)
    ensures Inv(Next(s, step))
  {
    if step.Send? {
      hide AfterSend, Counts, Flags, InOrder;
      InvSend(s, step.event);
    } else {
      MovesKeepAccepted(s, step);
      MovesKeepCounts(s, step);
      hide Accepted;
    }
  }

  lemma MovesKeepCounts(s: Sink, step: Step)
    requires !step.Send? && Counts(s) && Flags(s)
    ensures Counts(Next(s, step)) && Flags(Next(s, step))
    ensures Next(s, step).sent == s.sent && Next(s, step).refused == s.refused
      && Next(s, step).overflowed == s.overflowed
  {
  }

  /** The invariant holds after every schedule of sender, flusher and consumer. */
  lemma {:induction false} InvRun(s: Sink, steps: seq<Step>)
    requires Inv(s)
    ensures Inv(Run(s, steps))
    decreases |steps|
  {
    if steps != [] {
      InvStep(s, steps[0]);
      InvRun(Next(s, steps[0]), steps[1..]);
    }
  }

  /** Order: nothing is lost, duplicated or reordered before an overflow or a discard. */
  lemma FifoUntilStopped(steps: seq<Step>)
    ensures var s := Run(Init(), steps);
            !s.stopped ==> Published(s) + Held(s) + s.pending == s.sent && s.dropped == 0
  {
    InvRun(Init(), steps);
    var s := Run(Init(), steps);
    if !s.stopped {
      assert Accepted(s) == s.sent[..|s.sent|] == s.sent;
    }
  }

  /** After an overflow the sink holds a prefix of what was sent, then one terminal error. */
  lemma OverflowEndsInOneError(steps: seq<Step>)
    ensures var s := Run(Init(), steps);
            s.overflowed && s.lost == [] ==>
              && s.dropped <= |s.sent|
              && Published(s) + Held(s) + s.pending == s.sent[..|s.sent| - s.dropped] + [OverflowError]
  {
    InvRun(Init(), steps);
    var s := Run(Init(), steps);
    if s.overflowed && s.lost == [] {
      assert Accepted(s) == Published(s) + Held(s) + s.pending;
    }
  }

  /** What the consumer reads is a prefix of what was sent, closed by at most one error. */
  lemma ConsumerReadsPrefix(steps: seq<Step>)
    ensures var s := Run(Init(), steps);
            || s.consumed <= s.sent
            || exists n :: 0 <= n <= |s.sent| && s.consumed == s.sent[..n] + [OverflowError]
  {
    InvRun(Init(), steps);
    var s := Run(Init(), steps);
    var n := |s.sent| - s.refused;
    assert s.consumed <= Accepted(s);
    if |s.consumed| <= n {
      assert s.consumed == Accepted(s)[..|s.consumed|] == s.sent[..|s.consumed|];
    } else {
      assert s.consumed == Accepted(s) == s.sent[..n] + [OverflowError];
    }
  }

  /** Every event offered, and the synthetic error, is published, held or counted as dropped. */
  lemma NothingUnaccounted(steps: seq<Step>)
    ensures var s := Run(Init(), steps);
            && |s.sent| + |Synthetic(s)| == |Published(s)| + |Held(s)| + |s.pending| + s.dropped
            && |s.pending| <= 1025
            && |s.channel| <= 256
  {
    InvRun(Init(), steps);
    var s := Run(Init(), steps);
    assert |Accepted(s)| == |s.sent| - s.refused + |Synthetic(s)|;
  }

  /**
   In every run the sink overflows exactly at an event that finds 1024 pending and the
   sink not stopped; an event is published at once exactly if nothing is ahead of it
   and fewer than 256 events wait for the consumer.
   */
  lemma OverflowsExactlyIf(steps: seq<Step>, step: Step)
    ensures var s := Run(Init(), steps);
            var t := Next(s, step);
            && (t.overflowed != s.overflowed <==> step.Send? && !s.stopped && |s.pending| == 1024)
            && (t.overflowed != s.overflowed ==> t.pending == s.pending + [OverflowError] && t.channel == s.channel)
            && (step.Send? && !s.stopped ==>
                  (t.channel == s.channel + [Sdk(step.event)]
                   <==> !s.flushing && s.pending == [] && |s.channel| < 256))
  {
    InvRun(Init(), steps);
    var s := Run(Init(), steps);
    if !step.Send? {
      MovesKeepCounts(s, step);
    }
  }

  /**
   No wakeup is lost: from any reachable state with a live consumer the flusher
   and the consumer alone deliver every item the sink accepted.
   */
  lemma {:induction false} AcceptedIsDeliverable(s: Sink) returns (steps: seq<Step>)
    requires Inv(s) && s.attached && !s.finished
    ensures forall step :: step in steps ==> step.Take? || step.Publish? || step.Consume?
    ensures Run(s, steps).consumed == Accepted(s)
    decreases |s.channel| + 2 * |Held(s)| + 3 * |s.pending|
  {
    if s.channel == [] && s.inFlight.None? && s.pending == [] {
      steps := [];
    } else {
      var step := if s.channel != [] then Consume else if s.inFlight.Some? then Publish else Take;
      InvStep(s, step);
      MovesKeepAccepted(s, step);
      var rest := AcceptedIsDeliverable(Next(s, step));
      steps := [step] + rest;
      assert steps[1..] == rest;
    }
  }

  /** The sink itself; each method is one lock section or channel operation of the source. */
  class SessionEventSink {
    var channel: seq<Item>
    var pending: seq<Item>
    var inFlight: Option<Item>
    var attached: bool
    var finished: bool
    var flushing: bool
    var stopped: bool
    var dropped: nat
    ghost var sent: seq<Item>
    ghost var refused: nat
    ghost var consumed: seq<Item>
    ghost var lost: seq<Item>
    ghost var overflowed: bool

    ghost function State(): Sink
      reads this
    {
      Sink(channel, pending, inFlight, attached, finished, flushing, stopped, dropped,
           sent, refused, consumed, lost, overflowed)
    }

    constructor ()
      ensures State() == Init() && Inv(State())
    {
      channel, pending, inFlight := [], [], None;
      attached, finished, flushing, stopped, dropped := false, false, false, false, 0;
      sent, refused, consumed, lost, overflowed := [], 0, [], [], false;
      new;
      InvInit();
    }

    method StartFlushLocked()
      modifies `flushing
      ensures flushing == (old(flushing) || (attached && |pending| > 0))
    {
      if flushing || !attached || |pending| == 0 {
        return;
      }
      flushing := true;
    }

    method AttachConsumer()
      modifies this
      ensures State() == AfterAttach(old(State()))
    {
      attached := true;
      StartFlushLocked();
    }

    /** The SDK's event callback; it never waits. */
    method SendEvent(e: Event)
      modifies `sent, `dropped, `refused, `channel, `pending, `flushing, `stopped, `overflowed
      ensures State() == AfterSend(old(State()), e)
    {
      sent := sent + [Sdk(e)];
      if stopped {
        dropped, refused := dropped + 1, refused + 1;
        return;
      }
      if !flushing && |pending| == 0 && |channel| < CHANNEL_CAPACITY {
        channel := channel + [Sdk(e)];
        return;
      }
      if |pending| < OVERFLOW_LIMIT {
        pending := pending + [Sdk(e)];
        StartFlushLocked();
        return;
      }
      stopped, overflowed := true, true;
      dropped, refused := dropped + 1, refused + 1;
      pending := pending + [OverflowError];
      StartFlushLocked();
    }

    /** The flusher's lock section; `more` says whether it now holds an item to publish. */
    method FlushTake() returns (more: bool)
      requires flushing && inFlight.None?
      modifies this
      ensures State() == AfterTake(old(State()))
      ensures more == inFlight.Some?
    {
      if |pending| == 0 {
        flushing := false;
        return false;
      }
      inFlight := Some(pending[0]);
      pending := pending[1..];
      return true;
    }

    method FlushPublish()
      requires inFlight.Some? && |channel| < CHANNEL_CAPACITY
      modifies this
      ensures State() == AfterPublish(old(State()))
    {
      channel := channel + [inFlight.value];
      inFlight := None;
    }

    method Discard()
      requires inFlight.Some? && finished
      modifies this
      ensures State() == AfterAbandon(old(State()))
    {
      lost := Held(State()) + pending + lost;
      var abandoned := 1 + |pending|;
      pending := [];
      inFlight := None;
      flushing := false;
      stopped := true;
      dropped := dropped + abandoned;
    }

    method Receive() returns (item: Item)
      requires channel != [] && !finished
      modifies this
      ensures State() == AfterConsume(old(State())) && item == old(channel)[0]
    {
      item := channel[0];
      channel := channel[1..];
      consumed := consumed + [item];
    }

    /**
     Any schedule at all, executed on the sink's own fields: the state it ends in is
     the one the step relation predicts, so it satisfies the invariant.
     */
    method Execute(steps: seq<Step>)
      requires Inv(State())
      modifies this
      ensures State() == Run(old(State()), steps) && Inv(State())
    {
      InvRun(State(), steps);
      for i := 0 to |steps|
        invariant Run(State(), steps[i..]) == Run(old(State()), steps)
      {
        assert steps[i..][0] == steps[i] && steps[i..][1..] == steps[i + 1..];
        match steps[i] {
          case Attach => AttachConsumer();
          case Send(e) => SendEvent(e);
          case Take =>
            if flushing && inFlight.None? { var _ := FlushTake(); }
          case Publish =>
            if inFlight.Some? && |channel| < CHANNEL_CAPACITY { FlushPublish(); }
          case Abandon =>
            if inFlight.Some? && finished { Discard(); }
          case Consume =>
            if |channel| > 0 && !finished { var _ := Receive(); }
          case Finish =>
            if attached { finished := true; }
        }
      }
    }
  }
}
