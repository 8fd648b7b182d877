/**
 What a client of a Responses stream checks: every event numbered in turn, every
 item opened once, fed only while open, and closed once at the index it was opened
 at, and one terminal event with nothing left open.
 */
module ResponseClient {
  import opened Common
  import opened ResponseItems

  datatype Event =
    | Created
    | InProgress
    | ItemAdded(index: nat, item: Item)
    | ItemDone(index: nat, item: Item)
    | PartAdded(index: nat, id: ItemId)
    | TextDelta(index: nat, id: ItemId, delta: string)
    | TextDone(index: nat, id: ItemId, text: string)
    | PartDone(index: nat, id: ItemId, text: string)
    | SummaryAdded(index: nat, id: ItemId, summary: nat)
    | SummaryDelta(index: nat, id: ItemId, summary: nat, delta: string)
    | SummaryTextDone(index: nat, id: ItemId, summary: nat, text: string)
    | SummaryDone(index: nat, id: ItemId, summary: nat, text: string)
    | ArgumentsDelta(index: nat, id: ItemId, delta: string)
    | ArgumentsDone(index: nat, id: ItemId, arguments: string)
    | Completed(response: Response)
    | Failed(output: seq<Item>)

  datatype Frame = Frame(number: nat, event: Event)

  datatype Phase = Silent | Announced | Running | Ended

  /** The summary part of a reasoning item begun last, with the text gathered for it. */
  datatype Summary = Summary(index: nat, text: string)

  /**
   The client's view: items in order of appearance, the open ones, the text
   gathered for each, the open content parts, the summary parts, the arguments said
   to be whole, and the items as finally reported.
   */
  datatype Client = Client(
    ok: bool,
    phase: Phase,
    next: nat,
    order: seq<ItemId>,
    open: set<ItemId>,
    text: map<ItemId, string>,
    part: map<ItemId, string>,
    summary: map<ItemId, Summary>,
    arguments: map<ItemId, string>,
    final: map<ItemId, Item>)

  function Fresh(): Client {
    Client(true, Silent, 0, [], {}, map[], map[], map[], map[], map[])
  }

  /** `id` is open and `index` is where it appeared. */
  predicate At(c: Client, index: nat, id: ItemId) {
    id in c.open && index < |c.order| && c.order[index] == id
  }

  predicate PhaseAllows(phase: Phase, e: Event) {
    match e
    case Created => phase == Silent
    case InProgress => phase == Announced
    case _ => phase == Running
  }

  function PhaseAfter(phase: Phase, e: Event): Phase {
    match e
    case Created => Announced
    case InProgress => Running
    case Completed(_) => Ended
    case Failed(_) => Ended
    case _ => phase
  }

  /** The summary part a new one of this item follows is the one before it. */
  predicate NextSummary(summary: map<ItemId, Summary>, id: ItemId, number: nat) {
    number == if id in summary then summary[id].index + 1 else 0
  }

  /** What is said to be whole must be what was gathered; an item is done with the arguments said to be whole. */
  predicate ItemsAllow(c: Client, e: Event) {
    match e
    case Created => true
    case InProgress => true
    case ItemAdded(index, item) => index == |c.order| && item.id !in c.order
    case ItemDone(index, item) =>
      At(c, index, item.id) && item.id !in c.part
        && (item.id in c.arguments ==> item.arguments == c.arguments[item.id])
    case PartAdded(index, id) => At(c, index, id) && id !in c.part
    case TextDelta(index, id, _) => At(c, index, id) && id in c.part && id in c.text
    case TextDone(index, id, text) => At(c, index, id) && id in c.part && c.part[id] == text
    case PartDone(index, id, text) => At(c, index, id) && id in c.part && c.part[id] == text
    case SummaryAdded(index, id, number) => At(c, index, id) && NextSummary(c.summary, id, number)
    case SummaryDelta(index, id, number, _) =>
      At(c, index, id) && id in c.text && id in c.summary && c.summary[id].index == number
    case SummaryTextDone(index, id, number, text) =>
      At(c, index, id) && id in c.summary && c.summary[id] == Summary(number, text)
    case SummaryDone(index, id, number, text) =>
      At(c, index, id) && id in c.summary && c.summary[id] == Summary(number, text)
    case ArgumentsDelta(index, id, _) => At(c, index, id) && id in c.text && id !in c.arguments
    case ArgumentsDone(index, id, _) => At(c, index, id) && id in c.text && id !in c.arguments
    case Completed(_) => c.open == {}
    case Failed(output) => c.open == {} && Ids(output) == c.order
  }

  predicate Allowed(c: Client, e: Event) {
    PhaseAllows(c.phase, e) && ItemsAllow(c, e)
  }

  function OrderAfter(order: seq<ItemId>, e: Event): seq<ItemId> {
    if e.ItemAdded? then order + [e.item.id] else order
  }

  function OpenAfter(open: set<ItemId>, e: Event): set<ItemId> {
    if e.ItemAdded? then open + {e.item.id} else if e.ItemDone? then open - {e.item.id} else open
  }

  function Gather(texts: map<ItemId, string>, id: ItemId, delta: string): map<ItemId, string> {
    if id in texts then texts[id := texts[id] + delta] else texts
  }

  function TextAfter(text: map<ItemId, string>, e: Event): map<ItemId, string> {
    match e
    case ItemAdded(_, item) => text[item.id := ""]
    case TextDelta(_, id, delta) => Gather(text, id, delta)
    case SummaryDelta(_, id, _, delta) => Gather(text, id, delta)
    case ArgumentsDelta(_, id, delta) => Gather(text, id, delta)
    case _ => text
  }

  function PartAfter(part: map<ItemId, string>, e: Event): map<ItemId, string> {
    match e
    case PartAdded(_, id) => part[id := ""]
    case TextDelta(_, id, delta) => Gather(part, id, delta)
    case PartDone(_, id, _) => part - {id}
    case _ => part
  }

  function SummaryAfter(summary: map<ItemId, Summary>, e: Event): map<ItemId, Summary> {
    match e
    case SummaryAdded(_, id, number) => summary[id := Summary(number, "")]
    case SummaryDelta(_, id, _, delta) =>
      if id in summary then summary[id := summary[id].(text := summary[id].text + delta)] else summary
    case _ => summary
  }

  function ArgumentsAfter(arguments: map<ItemId, string>, e: Event): map<ItemId, string> {
    if e.ArgumentsDone? then arguments[e.id := e.arguments] else arguments
  }

  function FinalAfter(final: map<ItemId, Item>, e: Event): map<ItemId, Item> {
    if e.ItemDone? then final[e.item.id := e.item] else final
  }

  function Advance(c: Client, e: Event): Client {
    Client(c.ok, PhaseAfter(c.phase, e), c.next + 1, OrderAfter(c.order, e), OpenAfter(c.open, e),
           TextAfter(c.text, e), PartAfter(c.part, e), SummaryAfter(c.summary, e), ArgumentsAfter(c.arguments, e),
           FinalAfter(c.final, e))
  }

  function Observe(c: Client, f: Frame): Client {
    if c.ok && f.number == c.next && Allowed(c, f.event) then Advance(c, f.event) else c.(ok := false)
  }

  function Observed(frames: seq<Frame>): Client {
    if frames == [] then Fresh() else Observe(Observed(frames[..|frames| - 1]), frames[|frames| - 1])
  }

  /** A stream a client accepts to its end. */
  predicate WellFormed(frames: seq<Frame>) {
    Observed(frames).ok && Observed(frames).phase == Ended
  }

  /** A client that refused a frame refuses the stream, whatever else comes. */
  lemma {:induction false} RefusedForGood(frames: seq<Frame>, more: seq<Frame>)
    requires !Observed(frames).ok
    ensures !WellFormed(frames + more)
  {
    if more == [] {
      assert frames + more == frames;
    } else {
      var n := |more| - 1;
      RefusedForGood(frames, more[..n]);
      RefusedOn(frames, more[..n]);
      assert (frames + more)[..|frames + more| - 1] == frames + more[..n];
    }
  }

  lemma {:induction false} RefusedOn(frames: seq<Frame>, more: seq<Frame>)
    requires !Observed(frames).ok
    ensures !Observed(frames + more).ok
  {
    if more == [] {
      assert frames + more == frames;
    } else {
      RefusedOn(frames, more[..|more| - 1]);
      assert (frames + more)[..|frames + more| - 1] == frames + more[..|more| - 1];
    }
  }

  /** How much text an event adds to what the client gathers. */
  function DeltaSize(e: Event): nat {
    match e
    case TextDelta(_, _, delta) => |delta|
    case SummaryDelta(_, _, _, delta) => |delta|
    case ArgumentsDelta(_, _, delta) => |delta|
    case _ => 0
  }

  function Heard(frames: seq<Frame>): nat {
    if frames == [] then 0 else Heard(frames[..|frames| - 1]) + DeltaSize(frames[|frames| - 1].event)
  }

  lemma HeardMore(frames: seq<Frame>, f: Frame)
    ensures Heard(frames + [f]) == Heard(frames) + DeltaSize(f.event)
  {
    assert (frames + [f])[..|frames|] == frames;
  }

  lemma RefusedFrame(frames: seq<Frame>, c: Client, f: Frame)
    requires Accepts(frames, c) && !Allowed(c, f.event)
    ensures !Observed(frames + [f]).ok
  {
    AcceptsIsObserved(frames, c);
    assert (frames + [f])[..|frames|] == frames;
  }

  /** `c` is the client's view of these frames, and no frame was refused. */
  ghost predicate Accepts(frames: seq<Frame>, c: Client) {
    c.ok && exists views: seq<Client> :: Views(frames, views) && views[|frames|] == c
  }

  /** The client's views before the first frame and after each one. */
  ghost predicate Views(frames: seq<Frame>, views: seq<Client>) {
    && |views| == |frames| + 1 && views[0] == Fresh()
    && forall i {:trigger frames[i]} :: 0 <= i < |frames| ==> views[i + 1] == Observe(views[i], frames[i])
  }

  lemma AcceptsNothing()
    ensures Accepts([], Fresh())
  {
    assert Views([], [Fresh()]);
  }

  lemma AcceptsMore(frames: seq<Frame>, c: Client, e: Event)
    requires Accepts(frames, c) && Allowed(c, e)
    ensures Accepts(frames + [Frame(c.next, e)], Advance(c, e))
  {
    var views: seq<Client> :| Views(frames, views) && views[|frames|] == c;
    var f := Frame(c.next, e);
    var longer, grown := frames + [f], views + [Advance(c, e)];
    forall i | 0 <= i < |longer| ensures grown[i + 1] == Observe(grown[i], longer[i]) {
      if i < |frames| { assert longer[i] == frames[i]; }
    }
    assert Views(longer, grown);
  }

  lemma {:induction false} ViewsAreObserved(frames: seq<Frame>, views: seq<Client>)
    requires Views(frames, views)
    ensures views[|frames|] == Observed(frames)
  {
    if frames != [] {
      var n := |frames| - 1;
      forall i | 0 <= i < n ensures views[..n + 1][i + 1] == Observe(views[..n + 1][i], frames[..n][i]) {
        assert frames[..n][i] == frames[i];
      }
      ViewsAreObserved(frames[..n], views[..n + 1]);
      assert views[n + 1] == Observe(views[n], frames[n]);
    }
  }

  lemma AcceptsIsObserved(frames: seq<Frame>, c: Client)
    requires Accepts(frames, c)
    ensures c == Observed(frames) && c.ok
  {
    var views: seq<Client> :| Views(frames, views) && views[|frames|] == c;
    ViewsAreObserved(frames, views);
  }

  // ---- What acceptance means -------------------------------------------------

  predicate Terminal(e: Event) {
    e.Completed? || e.Failed?
  }

  predicate Adds(f: Frame, id: ItemId) {
    f.event.ItemAdded? && f.event.item.id == id
  }

  predicate Closes(f: Frame, id: ItemId) {
    f.event.ItemDone? && f.event.item.id == id
  }

  /** The phases are the beginning and the end of the stream; frames are numbered by position. */
  lemma {:induction false} Phases(frames: seq<Frame>)
    requires Observed(frames).ok
    ensures var c := Observed(frames);
            && c.next == |frames|
            && (forall i :: 0 <= i < |frames| ==> frames[i].number == i)
            && (c.phase == Silent <==> |frames| == 0)
            && (c.phase == Announced <==> |frames| == 1)
            && (|frames| >= 1 ==> frames[0].event == Created)
            && (|frames| >= 2 ==> frames[1].event == InProgress)
            && (forall i :: 0 <= i < |frames| - 1 ==> !Terminal(frames[i].event))
            && (c.phase == Ended <==> |frames| > 0 && Terminal(frames[|frames| - 1].event))
  {
    hide ItemsAllow, OrderAfter, OpenAfter, TextAfter, PartAfter, SummaryAfter, ArgumentsAfter, FinalAfter;
    if frames != [] { Phases(frames[..|frames| - 1]); }
  }

  /** Where an item was added, and where it was done. */
  ghost predicate Bracketed(frames: seq<Frame>, id: ItemId, added: int, done: int) {
    && 0 <= added < done < |frames|
    && Adds(frames[added], id) && Closes(frames[done], id)
    && frames[added].event.index == frames[done].event.index
    && (forall i :: 0 <= i < |frames| && Adds(frames[i], id) ==> i == added)
    && (forall i :: 0 <= i < |frames| && Closes(frames[i], id) ==> i == done)
  }

  /** The history of one item: unseen, added and open, or added and done. */
  ghost predicate History(frames: seq<Frame>, c: Client, id: ItemId, added: int, done: int) {
    if id !in c.order then
      forall i :: 0 <= i < |frames| ==> !Adds(frames[i], id) && !Closes(frames[i], id)
    else
      && 0 <= added < |frames| && Adds(frames[added], id)
      && frames[added].event.index < |c.order| && c.order[frames[added].event.index] == id
      && (forall i :: 0 <= i < |frames| && Adds(frames[i], id) ==> i == added)
      && if id in c.open then forall i :: 0 <= i < |frames| ==> !Closes(frames[i], id)
         else Bracketed(frames, id, added, done)
  }

  /** Only items that appeared are open, and none appeared twice. */
  ghost predicate Sound(c: Client) {
    && (forall id :: id in c.open ==> id in c.order)
    && (forall i, j :: 0 <= i < j < |c.order| ==> c.order[i] != c.order[j])
  }

  lemma SoundStep(c: Client, f: Frame)
    requires Sound(c) && Observe(c, f).ok
    ensures Sound(Observe(c, f))
  {
  }

  lemma {:induction false} ObservedSound(frames: seq<Frame>)
    requires Observed(frames).ok
    ensures Sound(Observed(frames))
  {
    if frames != [] {
      ObservedSound(frames[..|frames| - 1]);
      SoundStep(Observed(frames[..|frames| - 1]), frames[|frames| - 1]);
    }
  }

  // What the frames themselves add up to.

  /** All fragments sent for an item. */
  function Gathered(frames: seq<Frame>, id: ItemId): string {
    if frames == [] then ""
    else
      var before := Gathered(frames[..|frames| - 1], id);
      match frames[|frames| - 1].event
      case TextDelta(_, other, delta) => if other == id then before + delta else before
      case SummaryDelta(_, other, _, delta) => if other == id then before + delta else before
      case ArgumentsDelta(_, other, delta) => if other == id then before + delta else before
      case _ => before
  }

  /** The fragments of an item's content part begun last. */
  function PartGathered(frames: seq<Frame>, id: ItemId): string {
    if frames == [] then ""
    else
      var before := PartGathered(frames[..|frames| - 1], id);
      match frames[|frames| - 1].event
      case PartAdded(_, other) => if other == id then "" else before
      case TextDelta(_, other, delta) => if other == id then before + delta else before
      case _ => before
  }

  /** The fragments of an item's summary part begun last. */
  function SummaryGathered(frames: seq<Frame>, id: ItemId): string {
    if frames == [] then ""
    else
      var before := SummaryGathered(frames[..|frames| - 1], id);
      match frames[|frames| - 1].event
      case SummaryAdded(_, other, _) => if other == id then "" else before
      case SummaryDelta(_, other, _, delta) => if other == id then before + delta else before
      case _ => before
  }

  ghost predicate Gathers(c: Client, frames: seq<Frame>, id: ItemId) {
    && (id in c.text ==> id in c.order && c.text[id] == Gathered(frames, id))
    && (id !in c.order ==> Gathered(frames, id) == "")
    && (id in c.part ==> c.part[id] == PartGathered(frames, id))
    && (id in c.summary ==> c.summary[id].text == SummaryGathered(frames, id))
  }

  lemma GathersStep(c: Client, before: seq<Frame>, f: Frame, id: ItemId)
    requires Sound(c) && Gathers(c, before, id) && Observe(c, f).ok
    ensures Gathers(Observe(c, f), before + [f], id)
  {
    hide Gathered, PartGathered, SummaryGathered;
    GatheredMore(before, f, id);
  }

  lemma GatheredMore(before: seq<Frame>, f: Frame, id: ItemId)
    ensures Gathered(before + [f], id) == Gathered(before, id) +
      match f.event
      case TextDelta(_, other, delta) => if other == id then delta else ""
      case SummaryDelta(_, other, _, delta) => if other == id then delta else ""
      case ArgumentsDelta(_, other, delta) => if other == id then delta else ""
      case _ => ""
    ensures PartGathered(before + [f], id) ==
      match f.event
      case PartAdded(_, other) => if other == id then "" else PartGathered(before, id)
      case TextDelta(_, other, delta) => PartGathered(before, id) + if other == id then delta else ""
      case _ => PartGathered(before, id)
    ensures SummaryGathered(before + [f], id) ==
      match f.event
      case SummaryAdded(_, other, _) => if other == id then "" else SummaryGathered(before, id)
      case SummaryDelta(_, other, _, delta) => SummaryGathered(before, id) + if other == id then delta else ""
      case _ => SummaryGathered(before, id)
  {
    assert (before + [f])[..|before|] == before;
    NothingAdded(Gathered(before, id));
    NothingAdded(PartGathered(before, id));
    NothingAdded(SummaryGathered(before, id));
  }

  lemma NothingAdded(text: string)
    ensures text + "" == text
  {
  }

  /** The client's texts are what the frames it accepted add up to. */
  lemma {:induction false} ClientGathers(frames: seq<Frame>, id: ItemId)
    requires Observed(frames).ok
    ensures Gathers(Observed(frames), frames, id)
  {
    if frames != [] {
      var before, f := frames[..|frames| - 1], frames[|frames| - 1];
      ObservedSound(before);
      ClientGathers(before, id);
      GathersStep(Observed(before), before, f, id);
      assert before + [f] == frames;
    }
  }

  /** A done event of a part tells all the fragments of that part. */
  predicate TellsTheWhole(before: seq<Frame>, e: Event) {
    match e
    case TextDone(_, id, text) => text == PartGathered(before, id)
    case PartDone(_, id, text) => text == PartGathered(before, id)
    case SummaryTextDone(_, id, _, text) => text == SummaryGathered(before, id)
    case SummaryDone(_, id, _, text) => text == SummaryGathered(before, id)
    case _ => true
  }

  /** Every done event of an accepted stream tells the whole text of its part. */
  lemma {:induction false} DoneEventsTellTheWhole(frames: seq<Frame>, k: nat)
    requires Observed(frames).ok && k < |frames|
    ensures TellsTheWhole(frames[..k], frames[k].event)
  {
    var n := |frames| - 1;
    if k < n {
      DoneEventsTellTheWhole(frames[..n], k);
      assert frames[..n][..k] == frames[..k];
    } else {
      var e := frames[n].event;
      if Place(e).Some? { ClientGathers(frames[..n], Place(e).value.1); }
    }
  }

  /** An item done has the arguments said to be whole. */
  ghost predicate DoneAsSaid(c: Client) {
    && (forall id :: id in c.final ==> id in c.order && id !in c.open)
    && forall id :: id in c.final && id in c.arguments ==> c.final[id].arguments == c.arguments[id]
  }

  lemma DoneAsSaidStep(c: Client, f: Frame)
    requires Sound(c) && DoneAsSaid(c) && Observe(c, f).ok
    ensures DoneAsSaid(Observe(c, f))
  {
  }

  lemma {:induction false} ObservedAsSaid(frames: seq<Frame>)
    requires Observed(frames).ok
    ensures DoneAsSaid(Observed(frames))
  {
    if frames != [] {
      var before := frames[..|frames| - 1];
      ObservedSound(before);
      ObservedAsSaid(before);
      DoneAsSaidStep(Observed(before), frames[|frames| - 1]);
    }
  }

  lemma {:induction false} SaidOnce(frames: seq<Frame>, k: nat)
    requires Observed(frames).ok && k < |frames| && frames[k].event.ArgumentsDone?
    ensures var e, c := frames[k].event, Observed(frames);
            e.id in c.arguments && c.arguments[e.id] == e.arguments
  {
    var n := |frames| - 1;
    if k < n {
      SaidOnce(frames[..n], k);
    }
  }

  /**
   Arguments said to be whole in an accepted stream are said once, nothing is added to
   them, and if their item is done, it is done with them.
   */
  lemma ArgumentsAreSaidOnce(frames: seq<Frame>, k: nat)
    requires Observed(frames).ok && k < |frames| && frames[k].event.ArgumentsDone?
    ensures var e, c := frames[k].event, Observed(frames);
            && e.id in c.arguments && c.arguments[e.id] == e.arguments
            && (e.id in c.final ==> c.final[e.id].arguments == e.arguments)
  {
    SaidOnce(frames, k);
    ObservedAsSaid(frames);
  }

  /** The index and the item an event speaks of. */
  function Place(e: Event): Option<(nat, ItemId)> {
    match e
    case ItemAdded(index, item) => Some((index, item.id))
    case ItemDone(index, item) => Some((index, item.id))
    case PartAdded(index, id) => Some((index, id))
    case TextDelta(index, id, _) => Some((index, id))
    case TextDone(index, id, _) => Some((index, id))
    case PartDone(index, id, _) => Some((index, id))
    case SummaryAdded(index, id, _) => Some((index, id))
    case SummaryDelta(index, id, _, _) => Some((index, id))
    case SummaryTextDone(index, id, _, _) => Some((index, id))
    case SummaryDone(index, id, _, _) => Some((index, id))
    case ArgumentsDelta(index, id, _) => Some((index, id))
    case ArgumentsDone(index, id, _) => Some((index, id))
    case _ => None
  }

  predicate InPlace(order: seq<ItemId>, e: Event) {
    match Place(e)
    case None => true
    case Some((index, id)) => index < |order| && order[index] == id
  }

  lemma PlacedStep(c: Client, e: Event)
    requires Allowed(c, e)
    ensures InPlace(Advance(c, e).order, e)
  {
  }

  lemma PlaceLasts(c: Client, e: Event, later: Event)
    requires InPlace(c.order, e)
    ensures InPlace(Advance(c, later).order, e)
  {
  }

  /** Whatever an accepted event says of an item, it says at the item's position in the order of appearance. */
  lemma {:induction false} EveryEventIsInPlace(frames: seq<Frame>, k: nat)
    requires Observed(frames).ok && k < |frames|
    ensures InPlace(Observed(frames).order, frames[k].event)
  {
    var n := |frames| - 1;
    var c := Observed(frames[..n]);
    if k == n {
      PlacedStep(c, frames[n].event);
    } else {
      EveryEventIsInPlace(frames[..n], k);
      PlaceLasts(c, frames[k].event, frames[n].event);
    }
  }

  lemma {:induction false} ItemHistory(frames: seq<Frame>, id: ItemId) returns (added: int, done: int)
    requires Observed(frames).ok
    ensures History(frames, Observed(frames), id, added, done)
  {
    added, done := -1, -1;
    if frames != [] {
      var n := |frames| - 1;
      var before, f := frames[..n], frames[n];
      var a, d := ItemHistory(before, id);
      ObservedSound(before);
      assert before + [f] == frames;
      added := if Adds(f, id) then n else a;
      done := if Closes(f, id) then n else d;
      HistoryGrows(before, Observed(before), f, id, a, d);
    }
  }

  /** One more frame extends an item's history. */
  lemma HistoryGrows(before: seq<Frame>, c: Client, f: Frame, id: ItemId, added: int, done: int)
    requires Sound(c) && Observe(c, f).ok && History(before, c, id, added, done)
    ensures History(before + [f], Observe(c, f), id, if Adds(f, id) then |before| else added,
                    if Closes(f, id) then |before| else done)
  {
    var frames := before + [f];
    assert forall i :: 0 <= i < |before| ==> frames[i] == before[i];
    assert frames[|before|] == f;
  }

  /** In a well-formed stream every item added is done exactly once, later, at the same index. */
  lemma EveryItemIsBracketed(frames: seq<Frame>, i: nat) returns (done: int)
    requires WellFormed(frames) && i < |frames| && frames[i].event.ItemAdded?
    ensures Bracketed(frames, frames[i].event.item.id, i, done)
  {
    var id := frames[i].event.item.id;
    var added;
    added, done := ItemHistory(frames, id);
    Phases(frames);
    assert Adds(frames[i], id);
    assert Allowed(Observed(frames[..|frames| - 1]), frames[|frames| - 1].event);
  }
}

/**
 The event loop that turns one gateway turn into a Responses stream
 (internal/httpapi/responses_stream.go), for a writer that does not fail.
 */
module ResponseStream {
  import opened Common
  import opened ResponseItems
  import opened ResponseClient
  import Reconcile = StreamReconcile

  const DEFAULT_MAX_TURN_OUTPUT_BYTES: nat := 32 * 1024 * 1024

  datatype StreamedCall = StreamedCall(item: Item, delivered: string, remaining: string)

  datatype Lookup = Found(at: nat) | Renamed | Absent

  /** `Derailed`: a fragment went by an id the client was never told, and the client refuses the stream. */
  datatype Result = Delivered(response: Response) | FailureWritten | Abandoned | Derailed

  /** A response's items carry distinct ids that name their types. */
  predicate Addressed(resp: Response) {
    NamedItems(resp.output) && DistinctItems(resp.output)
  }

  predicate NamedItems(items: seq<Item>) {
    forall i :: 0 <= i < |items| ==> Names(items[i].id, items[i].kind)
  }

  predicate DistinctItems(items: seq<Item>) {
    forall i, j :: 0 <= i < j < |items| ==> items[i].id != items[j].id
  }

  /** A non-empty id names its item's type, and a terminal response's items are addressed. */
  predicate Typed(e: GatewayEvent) {
    match e
    case ReasoningDelta(id, _) => id == Unnamed || Names(id, Reasoning)
    case MessageDelta(id, _) => id == Unnamed || Names(id, Message)
    case ToolCallDelta(id, item, _) => CarriesCall(id, item) ==> Names(id, FunctionCall)
    case Finished(response) => response.Some? ==> Addressed(response.value)
    case _ => true
  }

  predicate CarriesCall(id: ItemId, item: Option<Item>) {
    id != Unnamed && item.Some? && item.value.kind == FunctionCall
  }

  // ---- What becomes of a stream ----------------------------------------------------

  /** What was streamed so far: the message and the reasoning announced, and the text sent for each item. */
  datatype Progress = Progress(reasoningId: Option<ItemId>, reasoning: string, messageId: Option<ItemId>,
                               message: string, calls: map<ItemId, string>, callBytes: nat)

  function NothingStreamed(): Progress {
    Progress(None, "", None, "", map[], 0)
  }

  function Total(g: Progress): nat {
    |g.reasoning| + |g.message| + g.callBytes
  }

  function SentFor(calls: map<ItemId, string>, id: ItemId): string {
    if id in calls then calls[id] else ""
  }

  function Add(g: Progress, e: GatewayEvent, suppress: bool): Progress {
    match e
    case ReasoningDelta(id, delta) =>
      if suppress || delta == "" then g else g.(reasoningId := Some(id), reasoning := g.reasoning + delta)
    case MessageDelta(id, delta) => g.(messageId := Some(id), message := g.message + delta)
    case ToolCallDelta(id, _, delta) =>
      if delta == "" then g
      else g.(calls := g.calls[id := SentFor(g.calls, id) + delta], callBytes := g.callBytes + |delta|)
    case _ => g
  }

  /** A fragment is taken exactly if it names its item and stays within the limit; nothing else is. */
  predicate Taken(g: Progress, e: GatewayEvent, suppress: bool, limit: nat) {
    match e
    case ReasoningDelta(id, delta) => suppress || delta == "" || (id != Unnamed && Total(g) + |delta| <= limit)
    case MessageDelta(id, delta) => id != Unnamed && Total(g) + |delta| <= limit
    case ToolCallDelta(id, item, delta) => CarriesCall(id, item) && (delta == "" || Total(g) + |delta| <= limit)
    case _ => false
  }

  /** The event keeps to the ids announced: one for the message, one for the reasoning, and a call by its item's own. */
  predicate Stable(g: Progress, e: GatewayEvent, suppress: bool, limit: nat) {
    match e
    case ReasoningDelta(id, delta) =>
      suppress || delta == "" || id == Unnamed || g.reasoningId.None? || g.reasoningId.value == id
    case MessageDelta(id, _) => id == Unnamed || g.messageId.None? || g.messageId.value == id
    case ToolCallDelta(id, item, delta) =>
      !CarriesCall(id, item) || delta == "" || Total(g) + |delta| > limit || id in g.calls || item.value.id == id
    case _ => true
  }

  /** What the first `n` events streamed. */
  function StreamedBefore(events: seq<GatewayEvent>, n: nat, suppress: bool): Progress
    requires n <= |events|
  {
    if n == 0 then NothingStreamed() else Add(StreamedBefore(events, n - 1, suppress), events[n - 1], suppress)
  }

  function FirstWith(items: seq<Item>, id: ItemId): (found: Option<Item>)
    ensures found.Some? ==> found.value.id == id && exists i :: 0 <= i < |items| && items[i] == found.value
    ensures found.None? ==> forall i :: 0 <= i < |items| ==> items[i].id != id
  {
    if items == [] then None
    else if items[0].id == id then Some(items[0])
    else FirstWith(items[1..], id)
  }

  /** Only items of this type under other ids. */
  predicate Renames(resp: Response, id: ItemId, kind: ItemType) {
    FirstWith(resp.output, id).None? && exists i :: 0 <= i < |resp.output| && resp.output[i].kind == kind
  }

  /** The text the response has for an item; none if it does not have the item. */
  function TextOf(resp: Response, id: ItemId): string {
    var found := FirstWith(resp.output, id);
    if found.Some? then Concat(found.value.parts) else ""
  }

  function AfterReasoning(resp: Response, g: Progress): Progress {
    if g.reasoningId.Some? && TextOf(resp, g.reasoningId.value) != ""
    then g.(reasoning := TextOf(resp, g.reasoningId.value)) else g
  }

  /** The response only adds to the streamed reasoning, if it tells it at all. */
  predicate ReasoningFits(resp: Response, g: Progress, limit: nat) {
    g.reasoningId.Some? ==>
      && !Renames(resp, g.reasoningId.value, Reasoning)
      && g.reasoning <= AfterReasoning(resp, g).reasoning
      && Total(AfterReasoning(resp, g)) <= limit
  }

  /** Every streamed call is in the response, with arguments that extend its fragments or mean the same. */
  predicate CallFits(decode: Reconcile.Decoder, resp: Response, id: ItemId, delivered: string) {
    var found := FirstWith(resp.output, id);
    && found.Some?
    && (delivered <= found.value.arguments || Reconcile.SameJsonValue(decode, found.value.arguments, delivered))
  }

  predicate CallsFit(decode: Reconcile.Decoder, resp: Response, calls: map<ItemId, string>) {
    forall id :: id in calls ==> CallFits(decode, resp, id, calls[id])
  }

  /** A streamed message is in the response, whose text only adds to it. */
  predicate MessageFits(resp: Response, g: Progress, limit: nat) {
    g.messageId.Some? ==>
      && FirstWith(resp.output, g.messageId.value).Some?
      && g.message <= TextOf(resp, g.messageId.value)
      && |g.reasoning| + |TextOf(resp, g.messageId.value)| + g.callBytes <= limit
  }

  /** Which responses complete a stream. */
  predicate Delivers(decode: Reconcile.Decoder, measure: Response -> Option<nat>, resp: Response, g: Progress,
                     limit: nat)
  {
    && ReasoningFits(resp, g, limit)
    && CallsFit(decode, resp, g.calls)
    && measure(resp).Some? && measure(resp).value <= limit
    && MessageFits(resp, AfterReasoning(resp, g), limit)
  }

  /** A message renamed midway: the second fragment is not what the client was told of. */
  lemma RenamedMessageIsUnstable(a: ItemId, b: ItemId, suppress: bool, limit: nat)
    requires Names(a, Message) && Names(b, Message) && a != b
    ensures var events := [MessageDelta(a, "x"), MessageDelta(b, "y")];
            Stable(StreamedBefore(events, 0, suppress), events[0], suppress, limit)
            && !Stable(StreamedBefore(events, 1, suppress), events[1], suppress, limit)
  {
    var events := [MessageDelta(a, "x"), MessageDelta(b, "y")];
    assert StreamedBefore(events, 1, suppress) == Add(NothingStreamed(), events[0], suppress);
  }

  function NonReasoning(items: seq<Item>): (kept: seq<Item>)
    ensures |kept| <= |items|
  {
    if items == [] then []
    else
      var last := items[|items| - 1];
      NonReasoning(items[..|items| - 1]) + (if last.kind == Reasoning then [] else [last])
  }

  /** The rendering filter; the gateway's own response is never touched. */
  function Rendered(resp: Response, suppress: bool): Response {
    if suppress then resp.(output := NonReasoning(resp.output)) else resp
  }

  function MessageIds(items: seq<Item>): seq<ItemId> {
    if items == [] then []
    else
      var last := items[|items| - 1];
      MessageIds(items[..|items| - 1]) + (if last.kind == Message then [last.id] else [])
  }

  predicate IsToolCall(item: Item) {
    item.kind == FunctionCall || item.kind == CustomToolCall || item.kind == ToolSearchCall
  }

  /** The calls delivered whole at the end, because none of their arguments were streamed. */
  function UnstreamedCallIds(items: seq<Item>, streamed: set<ItemId>): seq<ItemId> {
    if items == [] then []
    else
      var last := items[|items| - 1];
      UnstreamedCallIds(items[..|items| - 1], streamed)
        + (if IsToolCall(last) && !(last.kind == FunctionCall && last.id in streamed) then [last.id] else [])
  }

  function FirstReasoning(items: seq<Item>): (found: Option<Item>)
    ensures found.Some? ==> found.value in items && found.value.kind == Reasoning
    ensures found.None? ==> forall item :: item in items ==> item.kind != Reasoning
  {
    if items == [] then None
    else if items[0].kind == Reasoning then Some(items[0])
    else FirstReasoning(items[1..])
  }

  function FirstReasoningIds(items: seq<Item>): seq<ItemId> {
    if FirstReasoning(items).Some? then [FirstReasoning(items).value.id] else []
  }

  /** The items of a completed stream: the streamed ones as they came, then the others by type. */
  function EndOrder(seen: seq<ItemId>, output: seq<Item>): seq<ItemId> {
    seen
    + (if exists id :: id in seen && id.ReasoningId? then [] else FirstReasoningIds(output))
    + (if exists id :: id in seen && id.MessageId? then [] else MessageIds(output))
    + UnstreamedCallIds(output, Elements(seen))
  }

  lemma {:induction false} SameUnstreamedCalls(items: seq<Item>, a: set<ItemId>, b: set<ItemId>)
    requires forall i :: 0 <= i < |items| && items[i].kind == FunctionCall ==> (items[i].id in a <==> items[i].id in b)
    ensures UnstreamedCallIds(items, a) == UnstreamedCallIds(items, b)
  {
    if items != [] { SameUnstreamedCalls(items[..|items| - 1], a, b); }
  }

  lemma {:induction false} NonReasoningMembers(items: seq<Item>)
    ensures forall item :: item in NonReasoning(items) <==> item in items && item.kind != Reasoning
  {
    if items != [] {
      var n := |items| - 1;
      NonReasoningMembers(items[..n]);
      assert items == items[..n] + [items[n]];
    }
  }

  lemma {:induction false} NonReasoningDistinct(items: seq<Item>)
    requires DistinctItems(items)
    ensures DistinctItems(NonReasoning(items))
  {
    if items != [] {
      var n := |items| - 1;
      NonReasoningDistinct(items[..n]);
      NonReasoningMembers(items[..n]);
      var before, kept := NonReasoning(items[..n]), NonReasoning(items);
      forall i, j | 0 <= i < j < |kept| ensures kept[i].id != kept[j].id {
        assert kept[i] == before[i] && before[i] in items[..n];
        if j < |before| { assert kept[j] == before[j]; }
      }
    }
  }

  lemma RenderedAddressed(resp: Response, suppress: bool)
    requires Addressed(resp)
    ensures Addressed(Rendered(resp, suppress))
  {
    if suppress {
      NonReasoningDistinct(resp.output);
      NonReasoningMembers(resp.output);
      var kept := NonReasoning(resp.output);
      forall i | 0 <= i < |kept| ensures Names(kept[i].id, kept[i].kind) {
        assert kept[i] in resp.output;
      }
    }
  }

  /** The client gathered the whole of `item`, and was finally shown it. */
  predicate Told(decode: Reconcile.Decoder, c: Client, item: Item) {
    && item.id in c.final && item.id in c.text
    && match item.kind
       case Message => c.final[item.id] == item && c.text[item.id] == Concat(item.parts)
       case Reasoning =>
         Concat(item.parts) != "" ==> c.final[item.id] == item && c.text[item.id] == Concat(item.parts)
       case FunctionCall =>
         && c.final[item.id] == item && Reconcile.Carries(decode, item.arguments, c.text[item.id])
         && item.id in c.arguments && c.arguments[item.id] == item.arguments
       case _ => c.final[item.id] == item
  }

  /** Every item finally reported was told as the response has it. */
  predicate AllTold(decode: Reconcile.Decoder, c: Client, resp: Response) {
    && (forall i :: 0 <= i < |resp.output| && resp.output[i].id in c.final ==> Told(decode, c, resp.output[i]))
    && forall id :: id in c.arguments ==> SaidRightly(decode, c, id)
  }

  /**
   The arguments said to be whole are those the item was done with, and the client gathered
   them or the same value.
   */
  predicate SaidRightly(decode: Reconcile.Decoder, c: Client, id: ItemId)
    requires id in c.arguments
  {
    && id in c.final && c.final[id].arguments == c.arguments[id]
    && id in c.text && Reconcile.Carries(decode, c.arguments[id], c.text[id])
  }

  function ArgumentsWith(arguments: map<ItemId, string>, item: Item): map<ItemId, string> {
    if item.kind == FunctionCall then arguments[item.id := item.arguments] else arguments
  }

  /** Nothing but streamed calls is open any more. */
  ghost predicate Settling(c: Client) {
    && c.phase == Running && c.part == map[]
    && (forall id :: id in c.open ==> id in c.order)
    && (forall id :: id in c.order ==> id in c.text && (id in c.open || id in c.final))
    && (forall id :: id in c.final ==> id in c.order && id !in c.open)
    && (forall id :: id in c.arguments ==> id in c.final)
  }

  /** An item was announced, told and closed in one go. */
  ghost predicate Whole(c: Client, d: Client, item: Item, text: string) {
    d == c.(next := d.next, order := c.order + [item.id], text := c.text[item.id := text], summary := d.summary,
            arguments := ArgumentsWith(c.arguments, item), final := c.final[item.id := item])
  }

  lemma WholeItem(decode: Reconcile.Decoder, c: Client, d: Client, resp: Response, n: nat, text: string)
    requires Settling(c) && AllTold(decode, c, resp) && Addressed(resp)
    requires n < |resp.output| && resp.output[n].id !in c.order && Whole(c, d, resp.output[n], text)
    requires Told(decode, d, resp.output[n])
    ensures Settling(d) && AllTold(decode, d, resp) && Frozen(c, d)
  {
    forall i | 0 <= i < |resp.output| && resp.output[i].id in d.final ensures Told(decode, d, resp.output[i]) {
      if resp.output[i].id == resp.output[n].id {
        assert i == n;
      } else {
        assert Told(decode, c, resp.output[i]);
      }
    }
  }

  /** A streamed call was closed with its arguments completed. */
  ghost predicate ClosedOut(c: Client, d: Client, item: Item, text: string) {
    d == c.(next := d.next, open := c.open - {item.id}, text := c.text[item.id := text],
            arguments := ArgumentsWith(c.arguments, item), final := c.final[item.id := item])
  }

  lemma ClosedOutItem(decode: Reconcile.Decoder, c: Client, d: Client, resp: Response, n: nat, text: string)
    requires Settling(c) && AllTold(decode, c, resp) && Addressed(resp)
    requires n < |resp.output| && resp.output[n].id in c.open && ClosedOut(c, d, resp.output[n], text)
    requires Told(decode, d, resp.output[n])
    ensures Settling(d) && AllTold(decode, d, resp) && Frozen(c, d)
  {
    forall i | 0 <= i < |resp.output| && resp.output[i].id in d.final ensures Told(decode, d, resp.output[i]) {
      if resp.output[i].id == resp.output[n].id {
        assert i == n;
      } else {
        assert Told(decode, c, resp.output[i]);
      }
    }
  }

  /** The messages before position `n` have been announced whole, and nothing else happened since `start`. */
  ghost predicate Messaging(decode: Reconcile.Decoder, start: Client, c: Client, resp: Response, n: nat)
    requires n <= |resp.output|
  {
    && Settling(c) && AllTold(decode, c, resp) && c.open == start.open
    && c.order == start.order + MessageIds(resp.output[..n])
    && (forall i :: n <= i < |resp.output| && resp.output[i].kind == Message ==> resp.output[i].id !in c.order)
    && (forall id :: id in start.order ==> id in start.text && id in c.text && c.text[id] == start.text[id])
  }

  lemma SkipsItem(decode: Reconcile.Decoder, start: Client, c: Client, resp: Response, n: nat)
    requires n < |resp.output| && Messaging(decode, start, c, resp, n) && resp.output[n].kind != Message
    ensures Messaging(decode, start, c, resp, n + 1)
  {
    assert resp.output[..n + 1][..n] == resp.output[..n];
    var ids := MessageIds(resp.output[..n]);
    assert ids + [] == ids;
  }

  lemma WritesMessage(decode: Reconcile.Decoder, start: Client, c: Client, d: Client, resp: Response, n: nat)
    requires n < |resp.output| && Messaging(decode, start, c, resp, n) && resp.output[n].kind == Message
    requires Addressed(resp) && Whole(c, d, resp.output[n], Concat(resp.output[n].parts))
    ensures Messaging(decode, start, d, resp, n + 1)
  {
    assert resp.output[..n + 1][..n] == resp.output[..n];
    WholeItem(decode, c, d, resp, n, Concat(resp.output[n].parts));
    var ids, id := MessageIds(resp.output[..n]), resp.output[n].id;
    assert start.order + (ids + [id]) == (start.order + ids) + [id];
  }

  /** No call from position `n` on is announced unless it was streamed. */
  ghost predicate Unannounced(order: seq<ItemId>, resp: Response, k: CallState, n: nat) {
    forall i :: n <= i < |resp.output| && IsToolCall(resp.output[i]) && resp.output[i].id !in k.streams ==>
      resp.output[i].id !in order
  }

  /** The streamed calls from position `n` of the response on are open, with their fragments. */
  ghost predicate OpenFrom(c: Client, k: CallState, at: map<ItemId, nat>, n: nat) {
    && (forall id :: id in c.open <==> id in k.streams && id in at && at[id] >= n)
    && (forall id :: id in c.open && id in k.streams ==> id in c.text && c.text[id] == k.streams[id].delivered)
  }

  /** The calls before position `n` of the response are closed; the streamed ones behind it are still open. */
  ghost predicate Closing(decode: Reconcile.Decoder, c: Client, resp: Response, k: CallState, at: map<ItemId, nat>,
                          start: seq<ItemId>, n: nat)
    requires n <= |resp.output|
  {
    && Settling(c) && AllTold(decode, c, resp)
    && c.order == start + UnstreamedCallIds(resp.output[..n], k.streams.Keys)
    && OpenFrom(c, k, at, n)
    && Unannounced(c.order, resp, k, n)
  }

  /** Only the call at position `n` can sit there. */
  lemma NextPlace(decode: Reconcile.Decoder, resp: Response, k: CallState, at: map<ItemId, nat>, n: nat)
    requires n < |resp.output| && Addressed(resp) && Reconciled(decode, resp, k, at)
    ensures forall id :: id in at && at[id] >= n ==> at[id] >= n + 1 || id == resp.output[n].id
    ensures resp.output[n].id in at ==> at[resp.output[n].id] == n
  {
    forall id | id in at && at[id] >= n ensures at[id] >= n + 1 || id == resp.output[n].id {
      assert Owes(decode, resp, id, k.streams[id], at[id]);
    }
    if resp.output[n].id in at {
      assert Owes(decode, resp, resp.output[n].id, k.streams[resp.output[n].id], at[resp.output[n].id]);
    }
  }

  lemma UnstreamedCallsGrow(items: seq<Item>, streamed: set<ItemId>, n: nat)
    requires n < |items|
    ensures UnstreamedCallIds(items[..n + 1], streamed)
         == UnstreamedCallIds(items[..n], streamed)
            + if IsToolCall(items[n]) && !(items[n].kind == FunctionCall && items[n].id in streamed) then [items[n].id]
              else []
  {
    assert items[..n + 1][..n] == items[..n];
  }

  lemma PassesOver(decode: Reconcile.Decoder, c: Client, resp: Response, k: CallState, at: map<ItemId, nat>,
                   start: seq<ItemId>, n: nat)
    requires n < |resp.output| && Closing(decode, c, resp, k, at, start, n) && !IsToolCall(resp.output[n])
    requires Addressed(resp) && Reconciled(decode, resp, k, at)
    requires forall id :: id in k.streams ==> Names(id, FunctionCall)
    ensures Closing(decode, c, resp, k, at, start, n + 1)
  {
    UnstreamedCallsGrow(resp.output, k.streams.Keys, n);
    NextPlace(decode, resp, k, at, n);
    assert resp.output[n].id !in k.streams;
    var order := UnstreamedCallIds(resp.output[..n], k.streams.Keys);
    assert order + [] == order;
  }

  lemma ClosesStreamed(decode: Reconcile.Decoder, c: Client, d: Client, resp: Response, k: CallState,
                       at: map<ItemId, nat>, start: seq<ItemId>, n: nat)
    requires n < |resp.output| && Closing(decode, c, resp, k, at, start, n)
    requires Addressed(resp) && Reconciled(decode, resp, k, at)
    requires resp.output[n].kind == FunctionCall && resp.output[n].id in k.streams && resp.output[n].id in c.open
    requires ClosedOut(c, d, resp.output[n], c.text[resp.output[n].id] + k.streams[resp.output[n].id].remaining)
    ensures Closing(decode, d, resp, k, at, start, n + 1)
  {
    var id := resp.output[n].id;
    NextPlace(decode, resp, k, at, n);
    assert Owes(decode, resp, id, k.streams[id], n);
    assert Told(decode, d, resp.output[n]);
    ClosedOutItem(decode, c, d, resp, n, c.text[id] + k.streams[id].remaining);
    assert OpenFrom(d, k, at, n + 1);
    UnstreamedCallsGrow(resp.output, k.streams.Keys, n);
    var order := UnstreamedCallIds(resp.output[..n], k.streams.Keys);
    assert order + [] == order;
  }

  lemma ClosesWhole(decode: Reconcile.Decoder, c: Client, d: Client, resp: Response, k: CallState,
                    at: map<ItemId, nat>, start: seq<ItemId>, n: nat)
    requires n < |resp.output| && Closing(decode, c, resp, k, at, start, n)
    requires Addressed(resp) && Reconciled(decode, resp, k, at)
    requires IsToolCall(resp.output[n]) && resp.output[n].id !in k.streams
    requires Whole(c, d, resp.output[n], if resp.output[n].kind == FunctionCall then resp.output[n].arguments else "")
    ensures Closing(decode, d, resp, k, at, start, n + 1)
  {
    var item := resp.output[n];
    WholeItem(decode, c, d, resp, n, if item.kind == FunctionCall then item.arguments else "");
    UnstreamedCallsGrow(resp.output, k.streams.Keys, n);
    assert start + (UnstreamedCallIds(resp.output[..n], k.streams.Keys) + [item.id])
        == (start + UnstreamedCallIds(resp.output[..n], k.streams.Keys)) + [item.id];
    NextPlace(decode, resp, k, at, n);
  }

  /** Every streamed item but the reasoning stands in the response. */
  ghost predicate StreamedItemsReturn(seen: seq<ItemId>, resp: Response) {
    forall id :: id in seen && !id.ReasoningId? ==> id in Ids(resp.output)
  }

  /** With the reasoning and the message dealt with, the calls are next. */
  lemma TiedSettles(c: Client, m: MessageState, r: ReasoningState, k: CallState)
    requires Tied(c, m, r, k) && (m.started ==> m.done) && (r.started ==> r.done)
    ensures Settling(c) && c.open == k.streams.Keys
  {
  }

  lemma SameTextsTie(text: map<ItemId, string>, later: map<ItemId, string>, k: CallState)
    requires CallsTied(text, k)
    requires forall id :: id in k.streams ==> id in later && later[id] == text[id]
    ensures CallsTied(later, k)
  {
  }

  /** No call is announced but the streamed ones. */
  ghost predicate OnlyStreamedCalls(order: seq<ItemId>, k: CallState) {
    forall id :: id in order && id.ToolId? ==> id in k.streams
  }

  lemma ReadyToClose(decode: Reconcile.Decoder, c: Client, resp: Response, k: CallState, at: map<ItemId, nat>)
    requires Settling(c) && AllTold(decode, c, resp) && Addressed(resp) && Reconciled(decode, resp, k, at)
    requires c.open == k.streams.Keys && CallsTied(c.text, k) && OnlyStreamedCalls(c.order, k)
    ensures Closing(decode, c, resp, k, at, c.order, 0) && CallItems(k)
  {
    assert resp.output[..0] == [];
    assert c.order + [] == c.order;
  }

  lemma AllClosed(decode: Reconcile.Decoder, c: Client, resp: Response, k: CallState, at: map<ItemId, nat>,
                  start: seq<ItemId>)
    requires Reconciled(decode, resp, k, at) && Closing(decode, c, resp, k, at, start, |resp.output|)
    ensures c.open == {} && c.order == start + UnstreamedCallIds(resp.output, k.streams.Keys)
    ensures forall id :: id in c.order ==> id in c.final
  {
    assert resp.output[..|resp.output|] == resp.output;
    forall id ensures id !in c.open {
      if id in at { assert Owes(decode, resp, id, k.streams[id], at[id]); }
    }
  }

  lemma {:induction false} MessageIdsAreMessages(items: seq<Item>)
    requires NamedItems(items)
    ensures forall id :: id in MessageIds(items) ==> id.MessageId?
  {
    if items != [] { MessageIdsAreMessages(items[..|items| - 1]); }
  }

  /** The announced items tell which of the response's items were streamed. */
  lemma EndsInOrder(seen: seq<ItemId>, m: MessageState, r: ReasoningState, k: CallState, resp: Response)
    requires Announcements(seen, m, r, k) && Addressed(resp)
    requires (r.started ==> Names(r.id, Reasoning)) && (m.started ==> Names(m.id, Message))
    requires forall id :: id in k.streams ==> Names(id, FunctionCall)
    ensures seen + (if r.started then [] else FirstReasoningIds(resp.output))
                 + (if m.started then [] else MessageIds(resp.output))
                 + UnstreamedCallIds(resp.output, k.streams.Keys)
         == EndOrder(seen, resp.output)
  {
    if r.started { assert r.id in seen && r.id.ReasoningId?; }
    if m.started { assert m.id in seen && m.id.MessageId?; }
    forall i | 0 <= i < |resp.output| && resp.output[i].kind == FunctionCall
      ensures resp.output[i].id in k.streams.Keys <==> resp.output[i].id in Elements(seen)
    {
      assert Names(resp.output[i].id, FunctionCall);
    }
    SameUnstreamedCalls(resp.output, k.streams.Keys, Elements(seen));
  }

  lemma ItemsReturn(decode: Reconcile.Decoder, seen: seq<ItemId>, m: MessageState, r: ReasoningState, k: CallState,
                    resp: Response, at: map<ItemId, nat>)
    requires Announcements(seen, m, r, k) && Reconciled(decode, resp, k, at)
    requires r.started ==> Names(r.id, Reasoning)
    requires m.started ==> m.id in Ids(resp.output)
    ensures StreamedItemsReturn(seen, resp)
  {
    forall id | id in k.streams ensures id in Ids(resp.output) {
      assert Owes(decode, resp, id, k.streams[id], at[id]);
      assert Ids(resp.output)[at[id]] == id;
    }
  }

  lemma OnlyItemTold(decode: Reconcile.Decoder, c: Client, resp: Response, n: nat)
    requires Addressed(resp) && n < |resp.output| && Told(decode, c, resp.output[n])
    ensures forall i :: 0 <= i < |resp.output| && resp.output[i].id == resp.output[n].id ==>
      Told(decode, c, resp.output[i])
  {
    forall i | 0 <= i < |resp.output| && resp.output[i].id == resp.output[n].id ensures i == n {}
  }

  lemma ToldGrows(decode: Reconcile.Decoder, c: Client, d: Client, resp: Response, told: set<ItemId>)
    requires AllTold(decode, c, resp) && Frozen(c, d) && d.arguments == c.arguments
    requires d.final.Keys <= c.final.Keys + told
    requires forall i :: 0 <= i < |resp.output| && resp.output[i].id in told ==> Told(decode, d, resp.output[i])
    ensures AllTold(decode, d, resp)
  {
  }

  /** The response's item of this id, unless it has no text, is `item`. */
  predicate ShownAs(resp: Response, item: Item) {
    forall i :: 0 <= i < |resp.output| && resp.output[i].id == item.id ==>
      Concat(resp.output[i].parts) != "" ==> item == resp.output[i]
  }

  /** The text of the response's item of this id, unless it has none, is `text`. */
  predicate SaidAs(resp: Response, id: ItemId, text: string) {
    forall i :: 0 <= i < |resp.output| && resp.output[i].id == id ==>
      Concat(resp.output[i].parts) != "" ==> text == Concat(resp.output[i].parts)
  }

  /** What was finally reported stays as it was. */
  predicate Frozen(before: Client, after: Client) {
    forall id :: id in before.final ==>
      && id in after.final && after.final[id] == before.final[id]
      && (id in before.text ==> id in after.text && after.text[id] == before.text[id])
      && (id in before.arguments ==> id in after.arguments && after.arguments[id] == before.arguments[id])
  }

  /** The first index of `id`, appended if it is new. */
  method IndexOf(ids: seq<ItemId>, id: ItemId) returns (grown: seq<ItemId>, index: nat)
    ensures grown == Seen(ids, id)
    ensures index < |grown| && grown[index] == id && forall i :: 0 <= i < index ==> grown[i] != id
  {
    index := 0;
    while index < |ids|
      invariant index <= |ids| && forall i :: 0 <= i < index ==> ids[i] != id
    {
      if ids[index] == id {
        return ids, index;
      }
      index := index + 1;
    }
    grown := ids + [id];
  }

  method FindItem(items: seq<Item>, id: ItemId) returns (at: Option<nat>)
    ensures at.Some? ==> at.value < |items| && FirstWith(items, id) == Some(items[at.value])
    ensures at.None? ==> FirstWith(items, id).None?
  {
    for i := 0 to |items|
      invariant FirstWith(items, id) == FirstWith(items[i..], id)
    {
      assert items[i..][0] == items[i] && items[i..][1..] == items[i + 1..];
      if items[i].id == id {
        return Some(i);
      }
    }
    return None;
  }

  /** The item with a streamed id; an item of its type under another id means someone renamed it. */
  method TerminalOutputItem(resp: Response, id: ItemId, kind: ItemType) returns (r: Lookup)
    ensures r.Found? ==> r.at < |resp.output| && resp.output[r.at].id == id && id != Unnamed
    ensures r.Found? ==> FirstWith(resp.output, id) == Some(resp.output[r.at])
    ensures !r.Found? && id != Unnamed ==> FirstWith(resp.output, id).None?
    ensures r.Renamed? <==> id != Unnamed && Renames(resp, id, kind)
  {
    hide FirstWith;
    if id == Unnamed {
      return Absent;
    }
    var at := FindItem(resp.output, id);
    if at.Some? {
      return Found(at.value);
    }
    for i := 0 to |resp.output|
      invariant forall j :: 0 <= j < i ==> resp.output[j].kind != kind
    {
      if resp.output[i].kind == kind {
        return Renamed;
      }
    }
    return Absent;
  }

  method FilterResponseReasoning(resp: Response, suppress: bool) returns (rendered: Response)
    ensures rendered == Rendered(resp, suppress)
  {
    if !suppress {
      return resp;
    }
    var kept: seq<Item> := [];
    for i := 0 to |resp.output|
      invariant kept == NonReasoning(resp.output[..i])
    {
      assert resp.output[..i + 1][..i] == resp.output[..i];
      if resp.output[i].kind != Reasoning {
        kept := kept + [resp.output[i]];
      }
    }
    assert resp.output[..|resp.output|] == resp.output;
    rendered := resp.(output := kept);
  }

  method FinalReasoningItem(resp: Response) returns (found: Option<Item>)
    ensures found == FirstReasoning(resp.output)
  {
    for i := 0 to |resp.output|
      invariant FirstReasoning(resp.output) == FirstReasoning(resp.output[i..])
    {
      assert resp.output[i..][0] == resp.output[i] && resp.output[i..][1..] == resp.output[i + 1..];
      if resp.output[i].kind == Reasoning {
        return Some(resp.output[i]);
      }
    }
    return None;
  }

  datatype MessageState = MessageState(id: ItemId, started: bool, done: bool, part: bool, text: string)

  datatype ReasoningState = ReasoningState(id: ItemId, started: bool, summaryDone: bool, done: bool, text: string)

  datatype CallState = CallState(streams: map<ItemId, StreamedCall>, order: seq<ItemId>, bytes: nat)

  ghost predicate ReasoningTied(text: map<ItemId, string>, r: ReasoningState) {
    && (r.started ==> Names(r.id, Reasoning))
    && (r.started && !r.done ==> r.id in text && text[r.id] == r.text)
  }

  /** The summary part still open is the first, with all the reasoning so far. */
  ghost predicate SummaryTied(summary: map<ItemId, Summary>, r: ReasoningState) {
    && (r.started && !r.done ==> r.id in summary)
    && (r.started && !r.done && !r.summaryDone ==> summary[r.id] == Summary(0, r.text))
  }

  /** No second summary part was begun. */
  ghost predicate InFirstPart(summary: map<ItemId, Summary>, r: ReasoningState) {
    r.started && r.id in summary ==> summary[r.id].index == 0
  }

  ghost predicate MessageTied(text: map<ItemId, string>, part: map<ItemId, string>, m: MessageState) {
    && (m.started ==> Names(m.id, Message))
    && (m.part <==> m.started)
    && (m.started && !m.done ==> m.id in text && text[m.id] == m.text)
    && part == if m.started && !m.done then map[m.id := m.text] else map[]
  }

  ghost predicate CallTied(text: map<ItemId, string>, id: ItemId, call: StreamedCall) {
    && Names(id, FunctionCall) && call.item.id == id && call.item.kind == FunctionCall
    && id in text && text[id] == call.delivered
  }

  predicate NoRepeats(ids: seq<ItemId>) {
    forall i, j :: 0 <= i < j < |ids| ==> ids[i] != ids[j]
  }

  ghost predicate CallsTied(text: map<ItemId, string>, k: CallState) {
    && (forall id :: id in k.order <==> id in k.streams)
    && NoRepeats(k.order)
    && forall id :: id in k.streams ==> CallTied(text, id, k.streams[id])
  }

  function OpenItems(m: MessageState, r: ReasoningState, k: CallState): set<ItemId> {
    (if r.started && !r.done then {r.id} else {}) + (if m.started && !m.done then {m.id} else {}) + k.streams.Keys
  }

  function WithCall(k: CallState, item: Item): CallState {
    k.(streams := k.streams[item.id := StreamedCall(item, "", "")], order := k.order + [item.id])
  }

  function WithArguments(k: CallState, id: ItemId, delta: string): CallState
    requires id in k.streams
  {
    var call := k.streams[id];
    k.(streams := k.streams[id := call.(delivered := call.delivered + delta)], bytes := k.bytes + |delta|)
  }

  ghost predicate CallItems(k: CallState) {
    && (forall id :: id in k.order <==> id in k.streams)
    && forall id :: id in k.streams ==>
      k.streams[id].item.id == id && Names(id, FunctionCall) && k.streams[id].item.kind == FunctionCall
  }

  /** A failure frame shows each item where it was streamed, with the text the client gathered for it. */
  predicate FailureShows(order: seq<ItemId>, text: map<ItemId, string>, output: seq<Item>) {
    && |output| == |order|
    && forall i :: 0 <= i < |output| ==> output[i].id == order[i] && ShowsGathered(text, output[i])
  }

  predicate ShowsGathered(text: map<ItemId, string>, item: Item) {
    && item.id in text && Names(item.id, item.kind)
    && (item.kind == Message ==> item.parts == [text[item.id]])
    && (item.kind == FunctionCall ==> item.arguments == text[item.id])
  }

  /** The message and the calls of a failure frame are as they were closed before it. */
  predicate ClosedAsShown(final: map<ItemId, Item>, output: seq<Item>) {
    forall i :: 0 <= i < |output| && output[i].kind != Reasoning ==>
      output[i].id in final && final[output[i].id] == output[i]
  }

  function IncompleteCall(call: StreamedCall): Item {
    call.item.(arguments := call.delivered)
  }

  /** An announced item as far as the stream got. */
  function Partial(m: MessageState, r: ReasoningState, k: CallState, id: ItemId): (item: Item)
    requires forall other :: other in k.streams ==> k.streams[other].item.id == other
    ensures item.id == id
  {
    if id in k.streams then IncompleteCall(k.streams[id])
    else if m.started && id == m.id then Item(id, Message, [m.text], "")
    else Item(id, Reasoning, if r.text != "" then [r.text] else [], "")
  }

  /** The same calls and fragments; only what they are owed may differ. */
  ghost predicate SameCalls(k: CallState, l: CallState) {
    && l.order == k.order && l.bytes == k.bytes && l.streams.Keys == k.streams.Keys
    && forall id :: id in k.streams ==> l.streams[id] == k.streams[id].(remaining := l.streams[id].remaining)
  }

  /** What is owed to a call completes its terminal arguments, which stand at `n`. */
  predicate Owes(decode: Reconcile.Decoder, resp: Response, id: ItemId, call: StreamedCall, n: nat) {
    && n < |resp.output| && resp.output[n].id == id
    && Reconcile.Carries(decode, resp.output[n].arguments, call.delivered + call.remaining)
  }

  ghost predicate Reconciled(decode: Reconcile.Decoder, resp: Response, k: CallState, at: map<ItemId, nat>) {
    && at.Keys == k.streams.Keys
    && forall id :: id in at ==> Owes(decode, resp, id, k.streams[id], at[id])
  }

  /** The items announced so far are the message, the reasoning and the streamed calls. */
  ghost predicate Announcements(order: seq<ItemId>, m: MessageState, r: ReasoningState, k: CallState) {
    forall id :: id in order <==> (r.started && id == r.id) || (m.started && id == m.id) || id in k.streams
  }

  function Fragments(k: CallState): map<ItemId, string> {
    map id | id in k.streams :: k.streams[id].delivered
  }

  function ProgressOf(r: ReasoningState, m: MessageState, k: CallState): Progress {
    Progress(if r.started then Some(r.id) else None, r.text, if m.started then Some(m.id) else None, m.text,
             Fragments(k), k.bytes)
  }

  function WithFragment(k: CallState, id: ItemId, item: Item, delta: string): CallState
    requires id in k.streams || item.id == id
  {
    WithArguments(if id in k.streams then k else WithCall(k, item), id, delta)
  }

  lemma FragmentTaken(r: ReasoningState, s: ReasoningState, m: MessageState, k: CallState, id: ItemId, item: Item,
                      delta: string, suppress: bool)
    requires (id in k.streams || item.id == id) && delta != "" && s == r.(summaryDone := s.summaryDone)
    ensures WithFragment(k, id, item, delta).bytes == k.bytes + |delta|
    ensures ProgressOf(s, m, WithFragment(k, id, item, delta))
      == Add(ProgressOf(r, m, k), ToolCallDelta(id, Some(item), delta), suppress)
  {
    var l := if id in k.streams then k else WithCall(k, item);
    assert Fragments(l) == Fragments(k)[id := SentFor(Fragments(k), id)];
    assert Fragments(WithArguments(l, id, delta)) == Fragments(l)[id := Fragments(l)[id] + delta];
    assert Fragments(k)[id := SentFor(Fragments(k), id)][id := SentFor(Fragments(k), id) + delta]
        == Fragments(k)[id := SentFor(Fragments(k), id) + delta];
  }

  lemma NoFragment(k: CallState, g: Progress, id: ItemId, item: Option<Item>, suppress: bool)
    ensures id in Fragments(k) <==> id in k.streams
    ensures Add(g, ToolCallDelta(id, item, ""), suppress) == g
  {
  }

  lemma FragmentsFit(decode: Reconcile.Decoder, resp: Response, k: CallState)
    ensures CallsFit(decode, resp, Fragments(k)) <==>
      forall id :: id in k.streams ==> CallFits(decode, resp, id, k.streams[id].delivered)
  {
    hide CallFits;
    assert forall id :: id in k.streams ==> id in Fragments(k) && Fragments(k)[id] == k.streams[id].delivered;
  }

  lemma FragmentsStay(k: CallState, l: CallState)
    requires SameCalls(k, l)
    ensures Fragments(l) == Fragments(k)
  {
  }

  lemma NoElements(ids: seq<ItemId>)
    ensures Elements(ids[..0]) == {}
  {
  }

  lemma ElementsGrow(ids: seq<ItemId>, n: nat)
    requires n < |ids|
    ensures Elements(ids[..n + 1]) == Elements(ids[..n]) + {ids[n]}
    ensures forall id :: id in Elements(ids[..n]) ==> id in ids
  {
  }

  lemma AllElements(ids: seq<ItemId>, all: set<ItemId>)
    requires forall id :: id in ids <==> id in all
    ensures Elements(ids[..|ids|]) == all
  {
    assert ids[..|ids|] == ids;
  }

  lemma InitiallyTied()
    ensures var c := Advance(Advance(Fresh(), Created), InProgress);
            var m, r, k := MessageState(Unnamed, false, false, false, ""),
                           ReasoningState(Unnamed, false, false, false, ""), CallState(map[], [], 0);
            && Tied(c, m, r, k) && c.final == map[] && c.order == [] && ProgressOf(r, m, k) == NothingStreamed()
  {
  }

  lemma Initially()
    ensures Accepts([], Fresh()) && Heard([]) == 0 && Fresh().next == 0
    ensures Allowed(Fresh(), Created) && Allowed(Advance(Fresh(), Created), InProgress)
    ensures DeltaSize(Created) == DeltaSize(InProgress) == 0
  {
    AcceptsNothing();
  }

  lemma AnotherMessageIsNotOpen(c: Client, m: MessageState, r: ReasoningState, k: CallState, id: ItemId)
    requires Tied(c, m, r, k) && id != m.id && Names(id, Message)
    ensures id !in c.open
  {
  }

  lemma TextNeedsOpenItem(c: Client, i: nat, id: ItemId, text: string)
    requires id !in c.open
    ensures !Allowed(c, TextDelta(i, id, text)) && !Allowed(c, TextDone(i, id, text))
  {
  }

  /** The loop's variables describe the client's view of a running stream. */
  ghost predicate Tied(c: Client, m: MessageState, r: ReasoningState, k: CallState) {
    && c.phase == Running
    && c.open == OpenItems(m, r, k)
    && Announcements(c.order, m, r, k)
    && (forall id :: id in c.final ==> id in c.order && id !in c.open)
    && (forall id :: id in c.order ==> id in c.text && (id in c.open || id in c.final))
    && ReasoningTied(c.text, r) && MessageTied(c.text, c.part, m) && CallsTied(c.text, k)
    && SummaryTied(c.summary, r) && SummariesAnnounced(c) && c.arguments == map[]
  }

  ghost predicate SummariesAnnounced(c: Client) {
    forall id :: id in c.summary ==> id in c.order
  }

  lemma PartialShowsGathered(c: Client, m: MessageState, r: ReasoningState, k: CallState, id: ItemId)
    requires Tied(c, m, r, k) && !m.done && id in c.order
    ensures ShowsGathered(c.text, Partial(m, r, k, id))
  {
  }

  lemma PartialIgnoresProgress(m: MessageState, r: ReasoningState, n: MessageState, s: ReasoningState, k: CallState,
                               id: ItemId)
    requires n == m.(done := n.done) && s == r.(summaryDone := s.summaryDone, done := s.done) && CallItems(k)
    ensures Partial(n, s, k, id) == Partial(m, r, k, id)
  {
  }

  /** The partial items show the text gathered when the failure struck. */
  lemma PartialsShowGathered(c: Client, m: MessageState, r: ReasoningState, n: MessageState, s: ReasoningState,
                             k: CallState, output: seq<Item>)
    requires Tied(c, m, r, k) && !m.done && CallItems(k)
    requires n == m.(done := n.done) && s == r.(summaryDone := s.summaryDone, done := s.done)
    requires |output| == |c.order|
    requires forall i :: 0 <= i < |output| ==> output[i] == Partial(n, s, k, c.order[i])
    ensures FailureShows(c.order, c.text, output)
  {
    forall i | 0 <= i < |output| ensures output[i].id == c.order[i] && ShowsGathered(c.text, output[i]) {
      PartialIgnoresProgress(m, r, n, s, k, c.order[i]);
      PartialShowsGathered(c, m, r, k, c.order[i]);
    }
  }

  function IncompleteMessage(m: MessageState): Item {
    Item(m.id, Message, [m.text], "")
  }

  /** The message and the calls were closed as far as the stream got. */
  ghost predicate ClosedPartially(final: map<ItemId, Item>, m: MessageState, k: CallState) {
    && (forall id :: id in k.streams ==> id in final && final[id] == IncompleteCall(k.streams[id]))
    && (m.started ==> m.id in final && final[m.id] == IncompleteMessage(m))
  }

  lemma PartialsAreAsClosed(c: Client, m: MessageState, r: ReasoningState, k: CallState, output: seq<Item>)
    requires CallItems(k) && ClosedPartially(c.final, m, k)
    requires |output| == |c.order|
    requires forall i :: 0 <= i < |output| ==> output[i] == Partial(m, r, k, c.order[i])
    ensures ClosedAsShown(c.final, output)
  {
  }

  // ---- What the loop's events do to that description ---------------------------

  /** Events that bracket text leave the client's items as they are. */
  predicate Quiet(e: Event) {
    e.TextDone? || e.SummaryTextDone? || e.SummaryDone?
  }

  lemma QuietEvent(c: Client, m: MessageState, r: ReasoningState, k: CallState, e: Event, summaryDone: bool)
    requires Tied(c, m, r, k) && Quiet(e) && (r.summaryDone ==> summaryDone)
    ensures Advance(c, e) == c.(next := c.next + 1)
    ensures Tied(Advance(c, e), m, r.(summaryDone := summaryDone), k)
  {
  }

  lemma Overwritten(texts: map<ItemId, string>, id: ItemId, first: string, second: string)
    ensures texts[id := first][id := second] == texts[id := second]
  {
  }

  lemma SameCallsTied(c: Client, m: MessageState, r: ReasoningState, k: CallState, l: CallState)
    requires Tied(c, m, r, k) && SameCalls(k, l)
    ensures Tied(c, m, r, l)
  {
    assert OpenItems(m, r, l) == OpenItems(m, r, k);
  }

  lemma NewReasoningAllowed(c: Client, m: MessageState, r: ReasoningState, k: CallState, item: Item)
    requires Tied(c, m, r, k) && !r.started && item.id == r.id && Names(r.id, Reasoning)
    ensures var e := ItemAdded(|c.order|, item);
            Allowed(c, e) && Allowed(Advance(c, e), SummaryAdded(|c.order|, r.id, 0)) && r.id !in c.order
  {
  }

  lemma NewReasoningListed(c: Client, m: MessageState, r: ReasoningState, k: CallState, item: Item)
    requires Tied(c, m, r, k) && r.id !in c.order && item.id == r.id
    ensures var d := Advance(Advance(c, ItemAdded(|c.order|, item)), SummaryAdded(|c.order|, r.id, 0));
            && (forall id :: id in d.final ==> id in d.order && id !in d.open)
            && (forall id :: id in d.order ==> id in d.text && (id in d.open || id in d.final))
            && SummariesAnnounced(d) && d.arguments == map[]
  {
    hide ReasoningTied, MessageTied, CallsTied, Announcements, OpenItems, SummaryTied;
  }

  lemma NewReasoningApart(c: Client, m: MessageState, r: ReasoningState, k: CallState)
    requires Tied(c, m, r, k) && !r.started && Names(r.id, Reasoning)
    ensures r.id !in c.order && CallsTied(c.text[r.id := ""], k) && MessageTied(c.text[r.id := ""], c.part, m)
  {
    hide OpenItems;
  }

  lemma NewReasoningTied(c: Client, m: MessageState, r: ReasoningState, k: CallState, item: Item)
    requires Tied(c, m, r, k) && !r.started && !r.done && item.id == r.id && Names(r.id, Reasoning) && r.text == ""
    ensures var d := Advance(Advance(c, ItemAdded(|c.order|, item)), SummaryAdded(|c.order|, r.id, 0));
            && Tied(d, m, r.(started := true), k) && d.summary == c.summary[r.id := Summary(0, "")]
            && d.order == c.order + [r.id] && d.final == c.final && d.next == c.next + 2
  {
    NewReasoningApart(c, m, r, k);
    NewReasoningListed(c, m, r, k, item);
    hide CallsTied, MessageTied, SummariesAnnounced;
    var d := Advance(Advance(c, ItemAdded(|c.order|, item)), SummaryAdded(|c.order|, r.id, 0));
    assert d.open == OpenItems(m, r.(started := true), k);
  }

  lemma NewReasoning(c: Client, m: MessageState, r: ReasoningState, k: CallState, item: Item)
    requires Tied(c, m, r, k) && !r.started && !r.done && item.id == r.id && Names(r.id, Reasoning) && r.text == ""
    ensures var e := ItemAdded(|c.order|, item);
            var d := Advance(c, e);
            var f := SummaryAdded(|c.order|, r.id, 0);
            && Allowed(c, e) && Allowed(d, f) && r.id !in c.order
            && Tied(Advance(d, f), m, r.(started := true), k)
            && Advance(d, f).summary == c.summary[r.id := Summary(0, "")]
            && Advance(d, f).order == c.order + [r.id] && Advance(d, f).final == c.final
            && Advance(d, f).next == c.next + 2
  {
    hide Tied, Allowed, Advance;
    NewReasoningAllowed(c, m, r, k, item);
    NewReasoningTied(c, m, r, k, item);
  }

  lemma WholeReasoning(c: Client, d: Client, m: MessageState, r: ReasoningState, k: CallState, item: Item)
    requires Tied(c, m, r, k) && !r.started && Names(item.id, Reasoning)
    requires d == c.(next := d.next, order := c.order + [item.id], text := c.text[item.id := Concat(item.parts)],
                     summary := d.summary, final := c.final[item.id := item])
    requires forall id :: id in d.summary ==> id in c.summary || id == item.id
    ensures item.id !in c.order
    ensures Tied(d, m, ReasoningState(item.id, true, true, true, r.text), k) && Frozen(c, d)
  {
    assert d.open == OpenItems(m, ReasoningState(item.id, true, true, true, r.text), k);
  }

  lemma ReasoningUnannounced(c: Client, m: MessageState, r: ReasoningState, k: CallState, id: ItemId)
    requires Tied(c, m, r, k) && !r.started && Names(id, Reasoning)
    ensures c.phase == Phase.Running && id !in c.order && id !in c.open && id !in c.part
    ensures id !in c.summary && id !in c.arguments
  {
  }

  lemma MoreReasoning(c: Client, m: MessageState, r: ReasoningState, k: CallState, i: nat, summary: nat, delta: string)
    requires Tied(c, m, r, k) && r.started && !r.done && i < |c.order| && c.order[i] == r.id
    requires c.summary[r.id].index == summary
    ensures var e := SummaryDelta(i, r.id, summary, delta);
            && Allowed(c, e)
            && Tied(Advance(c, e), m, r.(text := r.text + delta), k)
            && Advance(c, e).summary == c.summary[r.id := Summary(summary, c.summary[r.id].text + delta)]
  {
  }

  /** The terminal response adds to reasoning whose summary is closed: a second part begins. */
  lemma SecondPart(c: Client, m: MessageState, r: ReasoningState, k: CallState, i: nat)
    requires Tied(c, m, r, k) && r.started && !r.done && r.summaryDone && i < |c.order| && c.order[i] == r.id
    requires c.summary[r.id].index == 0
    ensures var e := SummaryAdded(i, r.id, 1);
            && Allowed(c, e)
            && Tied(Advance(c, e), m, r, k) && Advance(c, e).next == c.next + 1
            && Advance(c, e).order == c.order && Advance(c, e).final == c.final
            && Advance(c, e).summary == c.summary[r.id := Summary(1, "")]
  {
  }

  /** Until it is announced, the reasoning may go by any id. */
  lemma ReasoningGoesBy(c: Client, m: MessageState, r: ReasoningState, k: CallState, id: ItemId)
    requires Tied(c, m, r, k) && (r.started ==> id == r.id)
    ensures Tied(c, m, r.(id := id), k)
  {
  }

  lemma OpenReasoning(c: Client, m: MessageState, r: ReasoningState, k: CallState)
    requires Tied(c, m, r, k) && r.started && !r.done
    ensures r.id in c.order && r.id in c.summary
  {
  }

  lemma FirstPartCloses(c: Client, m: MessageState, r: ReasoningState, k: CallState, i: nat)
    requires Tied(c, m, r, k) && r.started && !r.done && !r.summaryDone && i < |c.order| && c.order[i] == r.id
    ensures var e, f := SummaryTextDone(i, r.id, 0, r.text), SummaryDone(i, r.id, 0, r.text);
            var d := Advance(Advance(c, e), f);
            && Allowed(c, e) && Allowed(Advance(c, e), f)
            && Tied(d, m, r.(summaryDone := true), k) && d == c.(next := d.next)
  {
  }

  lemma SecondPartCloses(c: Client, m: MessageState, r: ReasoningState, k: CallState, i: nat, text: string)
    requires Tied(c, m, r, k) && r.started && !r.done && r.summaryDone && i < |c.order| && c.order[i] == r.id
    requires c.summary[r.id] == Summary(1, text)
    ensures var e, f := SummaryTextDone(i, r.id, 1, text), SummaryDone(i, r.id, 1, text);
            var d := Advance(Advance(c, e), f);
            && Allowed(c, e) && Allowed(Advance(c, e), f)
            && Tied(d, m, r, k) && d.next == c.next + 2 && d.final == c.final && d.order == c.order
  {
  }

  /** A summary part delivered whole. */
  lemma WholePart(c: Client, i: nat, id: ItemId, n: nat, part: string)
    requires c.phase == Phase.Running && At(c, i, id) && id in c.text && NextSummary(c.summary, id, n)
    ensures var a := Advance(c, SummaryAdded(i, id, n));
            var b := if part == "" then a else Advance(a, SummaryDelta(i, id, n, part));
            var d := Advance(b, SummaryTextDone(i, id, n, part));
            && Allowed(c, SummaryAdded(i, id, n))
            && (part != "" ==> Allowed(a, SummaryDelta(i, id, n, part)))
            && Allowed(b, SummaryTextDone(i, id, n, part))
            && Allowed(d, SummaryDone(i, id, n, part))
            && Advance(d, SummaryDone(i, id, n, part))
               == c.(next := Advance(d, SummaryDone(i, id, n, part)).next,
                     text := c.text[id := c.text[id] + part],
                     summary := c.summary[id := Summary(n, part)])
  {
    if part == "" {
      assert c.text[id] + part == c.text[id];
      assert c.text == c.text[id := c.text[id]];
    } else {
      assert "" + part == part;
      assert c.summary[id := Summary(n, "")][id := Summary(n, part)] == c.summary[id := Summary(n, part)];
    }
  }

  /** A content part begun, and fed if there is something to feed. */
  function FedPart(c: Client, i: nat, id: ItemId, part: string): Client {
    var a := Advance(c, PartAdded(i, id));
    if part == "" then a else Advance(a, TextDelta(i, id, part))
  }

  lemma PartIsFed(c: Client, i: nat, id: ItemId, part: string)
    requires c.phase == Phase.Running && At(c, i, id) && id in c.text && id !in c.part
    ensures Allowed(c, PartAdded(i, id))
    ensures part != "" ==> Allowed(Advance(c, PartAdded(i, id)), TextDelta(i, id, part))
    ensures var b := FedPart(c, i, id, part);
            b == c.(next := b.next, text := c.text[id := c.text[id] + part], part := c.part[id := part])
  {
    if part == "" {
      assert c.text[id] + part == c.text[id];
      assert c.text == c.text[id := c.text[id]];
    } else {
      assert "" + part == part;
      assert c.part[id := ""][id := part] == c.part[id := part];
    }
  }

  /** A content part delivered whole. */
  lemma WholeContentPart(c: Client, i: nat, id: ItemId, part: string)
    requires c.phase == Phase.Running && At(c, i, id) && id in c.text && id !in c.part
    ensures Allowed(c, PartAdded(i, id))
    ensures part != "" ==> Allowed(Advance(c, PartAdded(i, id)), TextDelta(i, id, part))
    ensures var b := FedPart(c, i, id, part);
            var d := Advance(b, TextDone(i, id, part));
            var e := Advance(d, PartDone(i, id, part));
            && Allowed(b, TextDone(i, id, part)) && Allowed(d, PartDone(i, id, part))
            && e == c.(next := e.next, text := c.text[id := c.text[id] + part])
  {
    hide FedPart;
    PartIsFed(c, i, id, part);
    assert c.part[id := part] - {id} == c.part;
  }

  lemma ReasoningCloses(c: Client, m: MessageState, r: ReasoningState, k: CallState, i: nat, item: Item)
    requires Tied(c, m, r, k) && r.started && !r.done && i < |c.order| && c.order[i] == r.id == item.id
    ensures var e := ItemDone(i, item);
            && Allowed(c, e)
            && Tied(Advance(c, e), m, r.(done := true), k) && Frozen(c, Advance(c, e))
  {
    var d := Advance(c, ItemDone(i, item));
    assert d.open == OpenItems(m, r.(done := true), k);
  }

  lemma NewMessage(c: Client, m: MessageState, r: ReasoningState, k: CallState, item: Item)
    requires Tied(c, m, r, k) && !m.started && !m.done && item.id == m.id && Names(m.id, Message) && m.text == ""
    ensures var e := ItemAdded(|c.order|, item);
            var d := Advance(c, e);
            var f := PartAdded(|c.order|, m.id);
            && Allowed(c, e) && Allowed(d, f) && m.id !in c.order
            && Tied(Advance(d, f), m.(started := true, part := true), r, k)
  {
    var d := Advance(Advance(c, ItemAdded(|c.order|, item)), PartAdded(|c.order|, m.id));
    assert d.open == OpenItems(m.(started := true), r, k);
    assert d.part == map[m.id := ""];
  }

  lemma MoreMessage(c: Client, m: MessageState, r: ReasoningState, k: CallState, i: nat, delta: string)
    requires Tied(c, m, r, k) && m.started && !m.done && i < |c.order| && c.order[i] == m.id
    ensures var e := TextDelta(i, m.id, delta);
            && Allowed(c, e)
            && Tied(Advance(c, e), m.(text := m.text + delta), r, k) && Frozen(c, Advance(c, e))
  {
    assert Advance(c, TextDelta(i, m.id, delta)).part == map[m.id := m.text + delta];
  }

  lemma MessageMayClose(c: Client, m: MessageState, r: ReasoningState, k: CallState, i: nat, item: Item)
    requires Tied(c, m, r, k) && m.started && !m.done && i < |c.order| && c.order[i] == m.id == item.id
    ensures var e := PartDone(i, m.id, m.text);
            && Allowed(c, TextDone(i, m.id, m.text)) && Allowed(c, e) && Allowed(Advance(c, e), ItemDone(i, item))
            && m.part
  {
  }

  lemma MessageIsClosed(c: Client, m: MessageState, r: ReasoningState, k: CallState, i: nat, item: Item)
    requires Tied(c, m, r, k) && m.started && !m.done && i < |c.order| && c.order[i] == m.id == item.id
    ensures var d := Advance(Advance(c, PartDone(i, m.id, m.text)), ItemDone(i, item));
            && Tied(d, m.(done := true), r, k) && Frozen(c, d)
            && d.order == c.order && d.text == c.text && d.final == c.final[item.id := item]
  {
    var d := Advance(Advance(c, PartDone(i, m.id, m.text)), ItemDone(i, item));
    assert d.open == OpenItems(m.(done := true), r, k);
    assert d.part == map[];
  }

  lemma MessageCloses(c: Client, m: MessageState, r: ReasoningState, k: CallState, i: nat, item: Item)
    requires Tied(c, m, r, k) && m.started && !m.done && i < |c.order| && c.order[i] == m.id == item.id
    ensures var e := PartDone(i, m.id, m.text);
            var d := Advance(c, e);
            var f := ItemDone(i, item);
            && Allowed(c, TextDone(i, m.id, m.text)) && Allowed(c, e) && Allowed(d, f)
            && Tied(Advance(d, f), m.(done := true), r, k) && Frozen(c, Advance(d, f)) && m.part
            && Advance(d, f).order == c.order && Advance(d, f).text == c.text
              && Advance(d, f).final == c.final[item.id := item]
  {
    hide Tied, Allowed, Advance, Frozen;
    MessageMayClose(c, m, r, k, i, item);
    MessageIsClosed(c, m, r, k, i, item);
  }

  lemma NewCallTied(text: map<ItemId, string>, k: CallState, item: Item)
    requires CallsTied(text, k)
    requires item.id !in k.streams && Names(item.id, FunctionCall) && item.kind == FunctionCall
    ensures CallsTied(text[item.id := ""], WithCall(k, item))
  {
  }

  lemma NewCallUnannounced(c: Client, m: MessageState, r: ReasoningState, k: CallState, id: ItemId)
    requires Tied(c, m, r, k) && id !in k.streams && Names(id, FunctionCall)
    ensures id !in c.order && id !in c.open && id !in c.final && id !in c.part
    ensures (r.started ==> id != r.id) && (m.started ==> id != m.id)
  {
  }

  lemma NewCallApart(c: Client, m: MessageState, r: ReasoningState, k: CallState, id: ItemId)
    requires Tied(c, m, r, k) && id !in k.streams && Names(id, FunctionCall)
    ensures ReasoningTied(c.text[id := ""], r) && MessageTied(c.text[id := ""], c.part, m)
  {
    NewCallUnannounced(c, m, r, k, id);
  }

  lemma NewCallListed(c: Client, m: MessageState, r: ReasoningState, k: CallState, item: Item)
    requires Tied(c, m, r, k) && item.id !in c.order
    ensures var d := Advance(c, ItemAdded(|c.order|, item));
            && (forall id :: id in d.final ==> id in d.order && id !in d.open)
            && (forall id :: id in d.order ==> id in d.text && (id in d.open || id in d.final))
            && SummaryTied(d.summary, r) && SummariesAnnounced(d) && d.arguments == map[]
  {
    hide ReasoningTied, MessageTied, CallsTied, Announcements, OpenItems;
  }

  lemma NewCall(c: Client, m: MessageState, r: ReasoningState, k: CallState, item: Item)
    requires Tied(c, m, r, k) && item.id !in k.streams && Names(item.id, FunctionCall) && item.kind == FunctionCall
    ensures var e := ItemAdded(|c.order|, item);
            && Allowed(c, e) && item.id !in c.order
            && Tied(Advance(c, e), m, r, WithCall(k, item))
  {
    hide CallsTied, ReasoningTied, MessageTied, SummaryTied, SummariesAnnounced;
    var d := Advance(c, ItemAdded(|c.order|, item));
    NewCallTied(c.text, k, item);
    NewCallUnannounced(c, m, r, k, item.id);
    NewCallApart(c, m, r, k, item.id);
    NewCallListed(c, m, r, k, item);
    assert Announcements(d.order, m, r, WithCall(k, item));
    assert d.open == OpenItems(m, r, WithCall(k, item));
  }

  lemma MoreArguments(c: Client, m: MessageState, r: ReasoningState, k: CallState, i: nat, id: ItemId, delta: string)
    requires Tied(c, m, r, k) && id in k.streams && i < |c.order| && c.order[i] == id
    ensures var e := ArgumentsDelta(i, id, delta);
            && Allowed(c, e)
            && Tied(Advance(c, e), m, r, WithArguments(k, id, delta))
  {
    var d := Advance(c, ArgumentsDelta(i, id, delta));
    assert d.open == OpenItems(m, r, WithArguments(k, id, delta));
  }

  /** The stream ended in a failure frame that shows what the client gathered. */
  ghost predicate EndsInFailure(frames: seq<Frame>, c: Client) {
    && c.phase == Ended && |frames| > 0 && frames[|frames| - 1].event.Failed? && c.arguments == map[]
    && FailureShows(c.order, c.text, frames[|frames| - 1].event.output)
    && ClosedAsShown(c.final, frames[|frames| - 1].event.output)
  }

  /**
   The stream ended in the response; every item announced was told as the response
   has it; the items came in the order `EndOrder` says.
   */
  ghost predicate EndsInResponse(decode: Reconcile.Decoder, frames: seq<Frame>, c: Client, seen: seq<ItemId>,
                                 resp: Response)
  {
    && c.phase == Ended && |frames| > 0 && frames[|frames| - 1].event == Completed(resp)
    && AllTold(decode, c, resp)
    && (forall id :: id in c.order ==> id in c.final)
    && c.order == EndOrder(seen, resp.output)
    && StreamedItemsReturn(seen, resp)
  }

  class StreamWriter {
    const maxBytes: nat
    const suppressReasoning: bool
    const decode: Reconcile.Decoder
    const measure: Response -> Option<nat>

    var sequenceNumber: nat
    var frames: seq<Frame>
    ghost var client: Client

    var index: seq<ItemId>
    var message: MessageState
    var reasoning: ReasoningState
    var calls: CallState

    /** The client has seen exactly these frames, accepted them, and agrees on the indices. */
    ghost predicate Sync()
      reads this
    {
      Accepts(frames, client) && sequenceNumber == client.next && index == client.order
    }

    ghost predicate Running()
      reads this
    {
      Sync() && Tied(client, message, reasoning, calls)
    }

    /** While deltas still arrive, items go by the ids the gateway gave them. */
    ghost predicate Streaming()
      reads this
    {
      && Running() && WithinLimit() && client.final == map[]
      && !message.done && !reasoning.done
      && (!message.started ==> message.text == "")
      && (!reasoning.started ==> reasoning.text == "")
      && Heard(frames) == Total(SoFar())
      && InFirstPart(client.summary, reasoning)
    }

    ghost function SoFar(): (g: Progress)
      reads this
      ensures Total(g) == |reasoning.text| + |message.text| + calls.bytes
    {
      ProgressOf(reasoning, message, calls)
    }

    ghost predicate Failure()
      reads this
    {
      Accepts(frames, client) && EndsInFailure(frames, client)
    }

    ghost predicate Completion(seen: seq<ItemId>, resp: Response)
      reads this
    {
      Accepts(frames, client) && EndsInResponse(decode, frames, client, seen, resp)
    }

    predicate WithinLimit()
      reads this
    {
      |reasoning.text| + |message.text| + calls.bytes <= maxBytes
    }

    constructor (maxBytes: nat, suppressReasoning: bool, decode: Reconcile.Decoder, measure: Response -> Option<nat>)
      ensures Streaming() && index == [] && SoFar() == NothingStreamed()
      ensures this.maxBytes == maxBytes && this.suppressReasoning == suppressReasoning
      ensures this.decode == decode && this.measure == measure
    {
      this.maxBytes, this.suppressReasoning, this.decode, this.measure := maxBytes, suppressReasoning, decode, measure;
      sequenceNumber, frames, client, index := 0, [], Fresh(), [];
      message := MessageState(Unnamed, false, false, false, "");
      reasoning := ReasoningState(Unnamed, false, false, false, "");
      calls := CallState(map[], [], 0);
      new;
      hide *;
      Initially();
      Write(Created);
      Write(InProgress);
      BeginsStreaming();
    }

    /** With the two opening frames written, deltas may arrive. */
    lemma BeginsStreaming()
      requires Accepts(frames, client) && sequenceNumber == client.next && index == []
      requires client == Advance(Advance(Fresh(), Created), InProgress) && Heard(frames) == 0
      requires message == MessageState(Unnamed, false, false, false, "")
        && reasoning == ReasoningState(Unnamed, false, false, false, "")
      requires calls == CallState(map[], [], 0)
      ensures Streaming() && SoFar() == NothingStreamed()
    {
      hide Heard, Tied, ProgressOf, Accepts, Advance;
      InitiallyTied();
    }

    method Write(e: Event)
      requires Accepts(frames, client) && sequenceNumber == client.next && Allowed(client, e)
      modifies `frames, `sequenceNumber, `client
      ensures Accepts(frames, client) && sequenceNumber == client.next
      ensures client == Advance(old(client), e)
      ensures frames == old(frames) + [Frame(old(sequenceNumber), e)]
      ensures Heard(frames) == Heard(old(frames)) + DeltaSize(e)
    {
      AcceptsMore(frames, client, e);
      HeardMore(frames, Frame(sequenceNumber, e));
      frames := frames + [Frame(sequenceNumber, e)];
      sequenceNumber := sequenceNumber + 1;
      client := Advance(client, e);
    }

    method Index(id: ItemId) returns (i: nat)
      modifies `index
      ensures index == Seen(old(index), id)
      ensures i < |index| && index[i] == id && (id !in old(index) ==> i == |old(index)|)
    {
      hide Heard, DeltaSize, FirstWith;
      index, i := IndexOf(index, id);
    }

    method EmitReasoningStart()
      requires Running() && Names(reasoning.id, Reasoning) && !reasoning.done
      requires !reasoning.started ==> reasoning.text == ""
      modifies `frames, `sequenceNumber, `client, `index, `reasoning
      ensures Running() && reasoning == old(reasoning).(started := true)
      ensures index == Seen(old(index), reasoning.id) && client.final == old(client.final)
      ensures Heard(frames) == Heard(old(frames))
      ensures InFirstPart(old(client.summary), old(reasoning)) ==> InFirstPart(client.summary, reasoning)
    {
      hide Heard, FirstWith, Names, Tied, Allowed, Advance;
      if reasoning.started {
        OpenReasoning(client, message, reasoning, calls);
        return;
      }
      NewReasoning(client, message, reasoning, calls, Item(reasoning.id, Reasoning, [], ""));
      reasoning := reasoning.(started := true);
      var i := Index(reasoning.id);
      Write(ItemAdded(i, Item(reasoning.id, Reasoning, [], "")));
      Write(SummaryAdded(i, reasoning.id, 0));
    }

    method CloseReasoningSummary()
      requires Running() && !reasoning.done
      modifies `frames, `sequenceNumber, `client, `index, `reasoning
      ensures Running() && index == old(index)
      ensures reasoning == old(reasoning).(summaryDone := reasoning.summaryDone)
      ensures client == old(client).(next := client.next)
      ensures Heard(frames) == Heard(old(frames))
    {
      hide Heard, FirstWith, Tied, Allowed, Advance;
      if !reasoning.started || reasoning.summaryDone {
        return;
      }
      OpenReasoning(client, message, reasoning, calls);
      reasoning := reasoning.(summaryDone := true);
      var i := Index(reasoning.id);
      FirstPartCloses(client, message, old(reasoning), calls, i);
      Write(SummaryTextDone(i, reasoning.id, 0, reasoning.text));
      Write(SummaryDone(i, reasoning.id, 0, reasoning.text));
    }

    /** The streamed reasoning item: as the terminal response has it, or from the streamed text alone. */
    method ReasoningAsFinished(terminal: Option<Response>) returns (ok: bool, item: Item)
      ensures ok <==> terminal.None? || reasoning.id == Unnamed || !Renames(terminal.value, reasoning.id, Reasoning)
      ensures ok ==> item.id == reasoning.id
      ensures ok && terminal.Some? && Addressed(terminal.value) ==> ShownAs(terminal.value, item)
    {
      hide Heard, DeltaSize, FirstWith;
      item := Item(reasoning.id, Reasoning, [], "");
      if terminal.Some? {
        var found := TerminalOutputItem(terminal.value, reasoning.id, Reasoning);
        if found.Renamed? {
          return false, item;
        }
        if found.Found? {
          item := terminal.value.output[found.at];
        }
      }
      if |item.parts| == 0 && reasoning.text != "" {
        item := item.(parts := [reasoning.text]);
      }
      ok := true;
    }

    /** Closes streamed reasoning: as the terminal response has it, or as far as the stream got. */
    method FinishReasoningItem(terminal: Option<Response>) returns (ok: bool)
      requires Running()
      modifies `frames, `sequenceNumber, `client, `index, `reasoning
      ensures Running() && index == old(index) && Frozen(old(client), client)
      ensures client.text == old(client.text)
      ensures reasoning == old(reasoning).(summaryDone := reasoning.summaryDone, done := reasoning.done)
      ensures ok <==>
        terminal.None? || !reasoning.started || old(reasoning.done) || !Renames(terminal.value, reasoning.id, Reasoning)
      ensures ok && reasoning.started ==> reasoning.done
      ensures ok && reasoning.started && !old(reasoning.done) ==>
        && reasoning.id in client.final && client.final[reasoning.id].id == reasoning.id
        && (terminal.Some? && Addressed(terminal.value) ==> ShownAs(terminal.value, client.final[reasoning.id]))
    {
      hide Heard, DeltaSize, FirstWith, Renames, ShownAs, MessageTied, CallsTied, Allowed, OpenItems;
      if !reasoning.started || reasoning.done {
        return true;
      }
      CloseReasoningSummary();
      var item;
      ok, item := ReasoningAsFinished(terminal);
      if !ok {
        return;
      }
      var i := Index(reasoning.id);
      ReasoningCloses(client, message, reasoning, calls, i, item);
      reasoning := reasoning.(done := true);
      Write(ItemDone(i, item));
    }

    /** Delivers reasoning the turn only resolved at its end, as a suffix of what was streamed. */
    method ReconcileStreamedReasoning(resp: Response) returns (ok: bool)
      requires Running() && !reasoning.done && WithinLimit() && Addressed(resp)
      requires InFirstPart(client.summary, reasoning)
      modifies `frames, `sequenceNumber, `client, `index, `reasoning
      ensures Running() && index == old(index) && client.final == old(client.final) && WithinLimit()
      ensures reasoning == old(reasoning).(text := reasoning.text)
      ensures ok && reasoning.started ==> SaidAs(resp, reasoning.id, reasoning.text)
      ensures ok <==> ReasoningFits(resp, old(SoFar()), maxBytes)
      ensures ok ==> SoFar() == AfterReasoning(resp, old(SoFar()))
    {
      hide Heard, DeltaSize, FirstWith;
      if !reasoning.started {
        return true;
      }
      var found := TerminalOutputItem(resp, reasoning.id, Reasoning);
      if found.Renamed? {
        return false;
      }
      if found.Absent? || |resp.output[found.at].parts| == 0 {
        return true;
      }
      var finalText := Concat(resp.output[found.at].parts);
      if finalText == "" {
        return true;
      }
      var suffix := Reconcile.TerminalStreamSuffix(finalText, reasoning.text);
      if suffix.Mismatch? {
        return false;
      }
      if suffix.text == "" {
        assert reasoning.text + suffix.text == reasoning.text;
        return true;
      }
      if |reasoning.text| + |message.text| + calls.bytes + |suffix.text| > maxBytes {
        return false;
      }
      DeliverReasoningSuffix(suffix.text);
      ok := true;
    }

    method ExtendReasoning(i: nat, summary: nat, delta: string)
      requires Running() && reasoning.started && !reasoning.done && i < |index| && index[i] == reasoning.id
      requires client.summary[reasoning.id].index == summary
      modifies `frames, `sequenceNumber, `client, `reasoning
      ensures Running() && reasoning == old(reasoning).(text := old(reasoning.text) + delta)
      ensures client.summary
        == old(client.summary)[reasoning.id := Summary(summary, old(client.summary)[reasoning.id].text + delta)]
      ensures client.final == old(client.final) && Heard(frames) == Heard(old(frames)) + |delta|
    {
      hide Heard, FirstWith;
      MoreReasoning(client, message, reasoning, calls, i, summary, delta);
      reasoning := reasoning.(text := reasoning.text + delta);
      Write(SummaryDelta(i, reasoning.id, summary, delta));
    }

    /** A summary part already closed is followed by a second part. */
    method DeliverReasoningSuffix(suffix: string)
      requires Running() && !reasoning.done && reasoning.started && InFirstPart(client.summary, reasoning)
      modifies `frames, `sequenceNumber, `client, `index, `reasoning
      ensures Running() && index == old(index) && client.final == old(client.final)
      ensures reasoning == old(reasoning).(text := old(reasoning.text) + suffix)
    {
      hide Heard, DeltaSize, FirstWith, Tied;
      OpenReasoning(client, message, reasoning, calls);
      var i := Index(reasoning.id);
      if reasoning.summaryDone {
        WriteSecondPart(i, suffix);
      } else {
        ExtendReasoning(i, 0, suffix);
      }
    }

    method WriteSecondPart(i: nat, suffix: string)
      requires Running() && !reasoning.done && reasoning.started && reasoning.summaryDone
      requires InFirstPart(client.summary, reasoning) && i < |index| && index[i] == reasoning.id
      modifies `frames, `sequenceNumber, `client, `reasoning
      ensures Running() && client.final == old(client.final)
      ensures reasoning == old(reasoning).(text := old(reasoning.text) + suffix)
    {
      hide Heard, DeltaSize, FirstWith, Allowed, Advance, Tied;
      OpenReasoning(client, message, reasoning, calls);
      SecondPart(client, message, reasoning, calls, i);
      Write(SummaryAdded(i, reasoning.id, 1));
      ExtendReasoning(i, 1, suffix);
      assert "" + suffix == suffix;
      SecondPartCloses(client, message, reasoning, calls, i, suffix);
      Write(SummaryTextDone(i, reasoning.id, 1, suffix));
      Write(SummaryDone(i, reasoning.id, 1, suffix));
    }

    /** Announces reasoning only the terminal response has, whole. */
    method ReconcileUnstreamedReasoning(resp: Response)
      requires Running() && Addressed(resp) && (reasoning.started ==> reasoning.done)
      modifies `frames, `sequenceNumber, `client, `index, `reasoning
      ensures Running() && Frozen(old(client), client)
      ensures old(reasoning.started) ==> client == old(client) && index == old(index)
      ensures !old(reasoning.started) ==>
        match FirstReasoning(resp.output)
        case None => index == old(index) && !reasoning.started
        case Some(item) => index == old(index) + [item.id] && Told(decode, client, item)
      ensures (reasoning.started ==> reasoning.done) && reasoning.text == old(reasoning.text)
    {
      hide Heard, DeltaSize, FirstWith, Advance;
      if reasoning.started {
        return;
      }
      var found := FinalReasoningItem(resp);
      if found.None? {
        return;
      }
      var item := found.value;
      assert Names(item.id, Reasoning);
      hide Tied, Names, FirstReasoning;
      ghost var before, was := client, reasoning;
      ReasoningUnannounced(before, message, was, calls, item.id);
      reasoning := ReasoningState(item.id, true, true, true, reasoning.text);
      var i := Index(item.id);
      WriteWholeReasoning(i, item);
      WholeReasoning(before, client, message, was, calls, item);
    }

    method WriteSummaryPart(i: nat, id: ItemId, summary: nat, part: string)
      requires Accepts(frames, client) && sequenceNumber == client.next
      requires client.phase == Phase.Running && At(client, i, id) && id in client.text
      requires NextSummary(client.summary, id, summary)
      modifies `frames, `sequenceNumber, `client
      ensures Accepts(frames, client) && sequenceNumber == client.next
      ensures client == old(client).(next := client.next, text := old(client.text)[id := old(client.text)[id] + part],
                                     summary := old(client.summary)[id := Summary(summary, part)])
    {
      hide Heard, DeltaSize, FirstWith, Allowed, Advance;
      WholePart(client, i, id, summary, part);
      Write(SummaryAdded(i, id, summary));
      if part != "" {
        Write(SummaryDelta(i, id, summary, part));
      }
      Write(SummaryTextDone(i, id, summary, part));
      Write(SummaryDone(i, id, summary, part));
    }

    method WriteWholeReasoning(i: nat, item: Item)
      requires Accepts(frames, client) && sequenceNumber == client.next
      requires client.phase == Phase.Running && i == |client.order| && item.id !in client.order
      requires item.id !in client.open && item.id !in client.part && item.id !in client.summary
      requires item.id !in client.arguments
      modifies `frames, `sequenceNumber, `client
      ensures Accepts(frames, client) && sequenceNumber == client.next
      ensures client == old(client).(next := client.next, order := old(client.order) + [item.id],
                                     text := old(client.text)[item.id := Concat(item.parts)],
                                     summary := client.summary, final := old(client.final)[item.id := item])
      ensures forall id :: id in client.summary ==> id in old(client.summary) || id == item.id
    {
      hide Heard, DeltaSize, FirstWith;
      ghost var before := client;
      Write(ItemAdded(i, item));
      ghost var added := client;
      ghost var told := "";
      assert item.parts[0..] == item.parts;
      for s := 0 to |item.parts|
        invariant Accepts(frames, client) && sequenceNumber == client.next
        invariant told + Concat(item.parts[s..]) == Concat(item.parts)
        invariant client == added.(next := client.next, text := before.text[item.id := told], summary := client.summary)
        invariant NextSummary(client.summary, item.id, s)
        invariant forall id :: id in client.summary ==> id in before.summary || id == item.id
      {
        assert item.parts[s..][0] == item.parts[s] && item.parts[s..][1..] == item.parts[s + 1..];
        Overwritten(before.text, item.id, told, told + item.parts[s]);
        assert told + item.parts[s] + Concat(item.parts[s + 1..])
          == told + (item.parts[s] + Concat(item.parts[s + 1..]));
        WriteSummaryPart(i, item.id, s, item.parts[s]);
        told := told + item.parts[s];
      }
      assert told == Concat(item.parts);
      Write(ItemDone(i, item));
      assert client.open == before.open;
    }

    // ---- Deltas ----------------------------------------------------------------

    method OnReasoningDelta(id: ItemId, delta: string) returns (failed: bool)
      requires Streaming() && Typed(ReasoningDelta(id, delta))
        && Stable(SoFar(), ReasoningDelta(id, delta), suppressReasoning, maxBytes)
      modifies this
      ensures failed <==> !Taken(old(SoFar()), ReasoningDelta(id, delta), suppressReasoning, maxBytes)
      ensures failed ==> Failure()
      ensures !failed ==> Streaming() && SoFar() == Add(old(SoFar()), ReasoningDelta(id, delta), suppressReasoning)
      ensures !failed ==> index == SeenWith(old(index), Sight(ReasoningDelta(id, delta), suppressReasoning))
    {
      hide Heard, FirstWith, Names, Tied;
      if suppressReasoning || delta == "" {
        return false;
      }
      if id == Unnamed {
        WriteFailure();
        return true;
      }
      ReasoningGoesBy(client, message, reasoning, calls, id);
      reasoning := reasoning.(id := id);
      EmitReasoningStart();
      OpenReasoning(client, message, reasoning, calls);
      var i := Index(reasoning.id);
      if |reasoning.text| + |message.text| + calls.bytes + |delta| > maxBytes {
        WriteFailure();
        return true;
      }
      ExtendReasoning(i, 0, delta);
      failed := false;
    }

    method OnMessageDelta(id: ItemId, delta: string) returns (failed: bool)
      requires Streaming() && Typed(MessageDelta(id, delta))
        && Stable(SoFar(), MessageDelta(id, delta), suppressReasoning, maxBytes)
      modifies this
      ensures failed <==> !Taken(old(SoFar()), MessageDelta(id, delta), suppressReasoning, maxBytes)
      ensures failed ==> Failure()
      ensures !failed ==> Streaming() && SoFar() == Add(old(SoFar()), MessageDelta(id, delta), suppressReasoning)
      ensures !failed ==> index == SeenWith(old(index), Sight(MessageDelta(id, delta), suppressReasoning))
    {
      hide Heard, DeltaSize, FirstWith, Fragments, CallsTied, ReasoningTied;
      if id == Unnamed {
        WriteFailure();
        return true;
      }
      message := message.(id := id);
      CloseReasoningSummary();
      if |reasoning.text| + |message.text| + calls.bytes + |delta| > maxBytes {
        WriteFailure();
        return true;
      }
      TakeMessage(delta);
      failed := false;
    }

    method TakeMessage(delta: string)
      requires Running() && client.final == map[] && !message.done && Names(message.id, Message)
      requires !message.started ==> message.text == ""
      modifies `frames, `sequenceNumber, `client, `index, `message
      ensures Running() && client.final == map[] && index == Seen(old(index), message.id)
      ensures client.summary == old(client.summary)
      ensures message == old(message).(started := true, part := true, text := old(message.text) + delta)
      ensures Heard(frames) == Heard(old(frames)) + |delta|
    {
      hide Heard, DeltaSize, Tied;
      var i := StartMessage();
      ExtendMessage(i, delta);
    }

    method ExtendMessage(i: nat, delta: string)
      requires Running() && message.started && !message.done && i < |index| && index[i] == message.id
      modifies `frames, `sequenceNumber, `client, `message
      ensures Running() && message == old(message).(text := old(message.text) + delta)
      ensures client.final == old(client.final) && Frozen(old(client), client)
      ensures Heard(frames) == Heard(old(frames)) + |delta| && client.summary == old(client.summary)
    {
      hide Heard, FirstWith;
      MoreMessage(client, message, reasoning, calls, i, delta);
      message := message.(text := message.text + delta);
      Write(TextDelta(i, message.id, delta));
    }

    /** Announces the message with its content part, on its first fragment. */
    method StartMessage() returns (i: nat)
      requires Running() && !message.done && Names(message.id, Message)
      requires !message.started ==> message.text == ""
      modifies `frames, `sequenceNumber, `client, `index, `message
      ensures Running() && message == old(message).(started := true, part := true)
      ensures index == Seen(old(index), message.id) && i < |index| && index[i] == message.id
      ensures Heard(frames) == Heard(old(frames)) && client.final == old(client.final)
      ensures client.summary == old(client.summary)
    {
      hide Heard, FirstWith, OpenItems;
      if !message.started {
        NewMessage(client, message, reasoning, calls, Item(message.id, Message, [], ""));
      }
      i := Index(message.id);
      if !message.started {
        Write(ItemAdded(i, Item(message.id, Message, [], "")));
      }
      if !message.part {
        Write(PartAdded(i, message.id));
      }
      message := message.(started := true, part := true);
    }

    method OnToolCallDelta(id: ItemId, item: Option<Item>, delta: string) returns (failed: bool)
      requires Streaming() && Typed(ToolCallDelta(id, item, delta))
        && Stable(SoFar(), ToolCallDelta(id, item, delta), suppressReasoning, maxBytes)
      modifies this
      ensures failed <==> !Taken(old(SoFar()), ToolCallDelta(id, item, delta), suppressReasoning, maxBytes)
      ensures failed ==> Failure()
      ensures !failed ==> Streaming() && SoFar() == Add(old(SoFar()), ToolCallDelta(id, item, delta), suppressReasoning)
      ensures !failed ==> index == SeenWith(old(index), Sight(ToolCallDelta(id, item, delta), suppressReasoning))
    {
      hide Heard, DeltaSize, FirstWith, Fragments, Add, WithCall, WithArguments, CallsTied, ReasoningTied, MessageTied;
      NoFragment(calls, SoFar(), id, item, suppressReasoning);
      if id == Unnamed || item.None? || item.value.kind != FunctionCall {
        WriteFailure();
        return true;
      }
      if delta == "" {
        return false;
      }
      CloseReasoningSummary();
      if |reasoning.text| + |message.text| + calls.bytes + |delta| > maxBytes {
        WriteFailure();
        return true;
      }
      FragmentTaken(old(reasoning), reasoning, message, calls, id, item.value, delta, suppressReasoning);
      TakeCall(id, item.value, delta);
      failed := false;
    }

    method TakeCall(id: ItemId, item: Item, delta: string)
      requires Running() && client.final == map[]
      requires (id in calls.streams || item.id == id) && Names(id, FunctionCall) && item.kind == FunctionCall
      modifies `frames, `sequenceNumber, `client, `index, `calls
      ensures Running() && client.final == map[] && index == Seen(old(index), id)
      ensures client.summary == old(client.summary)
      ensures calls == WithFragment(old(calls), id, item, delta)
      ensures Heard(frames) == Heard(old(frames)) + |delta|
    {
      hide Heard, DeltaSize, Tied, WithCall, WithArguments;
      var i := StartCall(id, item);
      ExtendCall(i, id, delta);
    }

    method ExtendCall(i: nat, id: ItemId, delta: string)
      requires Running() && id in calls.streams && i < |index| && index[i] == id
      modifies `frames, `sequenceNumber, `client, `calls
      ensures Running() && calls == WithArguments(old(calls), id, delta) && client.final == old(client.final)
      ensures client.summary == old(client.summary)
      ensures Heard(frames) == Heard(old(frames)) + |delta|
    {
      hide Heard, FirstWith, Tied, WithArguments;
      MoreArguments(client, message, reasoning, calls, i, id, delta);
      calls := WithArguments(calls, id, delta);
      Write(ArgumentsDelta(i, id, delta));
    }

    method StartCall(id: ItemId, item: Item) returns (i: nat)
      requires Running() && (id in calls.streams || item.id == id) && Names(id, FunctionCall)
        && item.kind == FunctionCall
      modifies `frames, `sequenceNumber, `client, `index, `calls
      ensures Running() && client.final == old(client.final) && Heard(frames) == Heard(old(frames))
      ensures client.summary == old(client.summary)
      ensures id in calls.streams
      ensures calls == if id in old(calls).streams then old(calls) else WithCall(old(calls), item)
      ensures index == Seen(old(index), id) && i < |index| && index[i] == id
    {
      hide Heard, FirstWith;
      if id !in calls.streams {
        NewCall(client, message, reasoning, calls, item);
      }
      i := Index(id);
      if id !in calls.streams {
        calls := WithCall(calls, item);
        Write(ItemAdded(i, item));
      }
    }

    // ---- Failure: close what is open, then report it ---------------------------

    method FinishIncompleteOutput()
      requires Running() && !message.done
      modifies `frames, `sequenceNumber, `client, `index, `reasoning, `message
      ensures Accepts(frames, client) && sequenceNumber == client.next
      ensures client.phase == Phase.Running && client.open == {} && client.order == old(index) == index
      ensures client.text == old(client.text) && client.arguments == map[]
      ensures reasoning == old(reasoning).(summaryDone := reasoning.summaryDone, done := reasoning.done)
      ensures message == old(message).(done := message.done)
      ensures ClosedPartially(client.final, message, calls)
    {
      hide Heard, DeltaSize, FirstWith;
      var ok := FinishReasoningItem(None);
      CloseCalls();
      if message.started && !message.done {
        CloseIncompleteMessage();
      }
    }

    method CloseIncompleteMessage()
      requires Accepts(frames, client) && sequenceNumber == client.next && index == client.order
      requires client.phase == Phase.Running && client.open == {message.id} && message.id in index
      requires message.part && client.part == map[message.id := message.text] && client.arguments == map[]
      modifies `frames, `sequenceNumber, `client, `index, `message
      ensures Accepts(frames, client) && sequenceNumber == client.next && index == old(index) == client.order
      ensures client.phase == Phase.Running && client.open == {} && client.text == old(client.text)
      ensures client.arguments == map[]
      ensures client.final == old(client.final)[message.id := IncompleteMessage(old(message))]
      ensures message == old(message).(done := true)
    {
      hide Heard, DeltaSize, FirstWith;
      var i := Index(message.id);
      Write(TextDone(i, message.id, message.text));
      if message.part {
        Write(PartDone(i, message.id, message.text));
      }
      Write(ItemDone(i, Item(message.id, Message, [message.text], "")));
      message := message.(done := true);
    }

    /** Closes every announced call with the arguments it got. */
    method CloseCalls()
      requires Running() && (reasoning.started ==> reasoning.done)
      modifies `frames, `sequenceNumber, `client, `index
      ensures Accepts(frames, client) && sequenceNumber == client.next && index == old(index)
      ensures client.phase == Phase.Running && client.order == old(client.order) == index
      ensures client.open == if message.started && !message.done then {message.id} else {}
      ensures client.text == old(client.text) && client.part == old(client.part) && client.arguments == map[]
      ensures forall id :: id in calls.streams ==>
        id in client.final && client.final[id] == IncompleteCall(calls.streams[id])
    {
      hide Heard, DeltaSize, FirstWith, Partial;
      for k := 0 to |calls.order|
        invariant Accepts(frames, client) && sequenceNumber == client.next && index == old(index)
        invariant client.phase == Phase.Running && client.order == index
        invariant client.text == old(client.text) && client.part == old(client.part) && client.arguments == map[]
        invariant client.open == old(client.open) - Elements(calls.order[..k])
        invariant forall id :: id in calls.order[..k] ==>
          id in client.final && client.final[id] == IncompleteCall(calls.streams[id])
      {
        var id := calls.order[k];
        var i := Index(id);
        assert id !in Elements(calls.order[..k]) && id in old(client.open) && id !in client.part;
        Write(ItemDone(i, IncompleteCall(calls.streams[id])));
        ElementsGrow(calls.order, k);
      }
    }

    /** The partial items in the order they were streamed, whatever order they are collected in. */
    method IncompleteResponseOutput() returns (output: seq<Item>)
      requires Announcements(index, message, reasoning, calls) && CallItems(calls)
      requires reasoning.started ==> Names(reasoning.id, Reasoning)
      requires message.started ==> Names(message.id, Message)
      ensures |output| == |index|
      ensures forall i :: 0 <= i < |index| ==> output[i] == Partial(message, reasoning, calls, index[i])
    {
      hide Heard, DeltaSize, FirstWith;
      var partial: map<ItemId, Item> := map[];
      if reasoning.started && reasoning.id != Unnamed {
        var parts := if reasoning.text != "" then [reasoning.text] else [];
        partial := partial[reasoning.id := Item(reasoning.id, Reasoning, parts, "")];
      }
      if message.started && message.id != Unnamed {
        partial := partial[message.id := Item(message.id, Message, [message.text], "")];
      }
      for k := 0 to |calls.order|
        invariant forall id :: id in partial ==> id in index && partial[id] == Partial(message, reasoning, calls, id)
        invariant forall id :: id in calls.order[..k] ==> id in partial
        invariant reasoning.started ==> reasoning.id in partial
        invariant message.started ==> message.id in partial
      {
        var id := calls.order[k];
        partial := partial[id := IncompleteCall(calls.streams[id])];
      }
      assert forall id :: id in index ==> id in partial;
      output := [];
      for i := 0 to |index|
        invariant |output| == i
        invariant forall j :: 0 <= j < i ==> output[j] == Partial(message, reasoning, calls, index[j])
      {
        if index[i] in partial {
          output := output + [partial[index[i]]];
        }
      }
    }

    method WriteFailure()
      requires Running() && !message.done
      modifies `frames, `sequenceNumber, `client, `index, `reasoning, `message
      ensures Failure() && reasoning.text == old(reasoning.text) && message.text == old(message.text)
    {
      hide Heard, DeltaSize, FirstWith;
      assert CallItems(calls);
      FinishIncompleteOutput();
      var output := IncompleteResponseOutput();
      PartialsAreAsClosed(client, message, reasoning, calls, output);
      PartialsShowGathered(old(client), old(message), old(reasoning), message, reasoning, calls, output);
      assert Ids(output) == index;
      Write(Failed(output));
    }

    // ---- The terminal response ---------------------------------------------------

    /** The call with what its terminal arguments add to its fragments. */
    method WhatIsOwed(resp: Response, id: ItemId, call: StreamedCall)
      returns (ok: bool, owed: StreamedCall, ghost at: nat)
      ensures ok ==> Owes(decode, resp, id, owed, at) && owed == call.(remaining := owed.remaining)
      ensures ok <==> id != Unnamed && CallFits(decode, resp, id, call.delivered)
    {
      hide Heard, DeltaSize, FirstWith;
      var found := TerminalOutputItem(resp, id, call.item.kind);
      if !found.Found? {
        return false, call, 0;
      }
      var suffix := Reconcile.ToolArgumentsSuffix(decode, resp.output[found.at].arguments, call.delivered);
      if suffix.Mismatch? {
        return false, call, 0;
      }
      return true, call.(remaining := suffix.text), found.at;
    }

    /** Checks every streamed call against its terminal item and records what it is still owed. */
    method ReconcileStreamedToolCalls(resp: Response) returns (ok: bool, ghost at: map<ItemId, nat>)
      requires Unnamed !in calls.streams && forall id :: id in calls.order <==> id in calls.streams
      modifies `calls
      ensures SameCalls(old(calls), calls)
      ensures ok ==> Reconciled(decode, resp, calls, at)
      ensures ok <==> CallsFit(decode, resp, Fragments(old(calls)))
    {
      hide Heard, DeltaSize, FirstWith, Fragments, CallFits, CallsFit, Owes, Elements;
      NoElements(calls.order);
      FragmentsFit(decode, resp, calls);
      at := map[];
      for n := 0 to |calls.order|
        invariant SameCalls(old(calls), calls)
        invariant at.Keys == Elements(calls.order[..n])
        invariant forall id :: id in at ==> id in calls.streams && Owes(decode, resp, id, calls.streams[id], at[id])
        invariant forall id :: id in at ==> CallFits(decode, resp, id, old(calls).streams[id].delivered)
      {
        var id := calls.order[n];
        var call;
        ghost var place;
        ok, call, place := WhatIsOwed(resp, id, calls.streams[id]);
        if !ok {
          return;
        }
        calls := calls.(streams := calls.streams[id := call]);
        at := at[id := place];
        ElementsGrow(calls.order, n);
      }
      AllElements(calls.order, calls.streams.Keys);
      ok := true;
    }

    /** Completes a streamed message with whatever its terminal item still adds. */
    method FinishStreamedMessage(resp: Response) returns (ok: bool)
      requires Running() && WithinLimit() && message.started && !message.done && Addressed(resp)
      modifies `frames, `sequenceNumber, `client, `index, `message
      ensures Running() && Frozen(old(client), client) && index == old(index) && WithinLimit()
      ensures !ok ==> !message.done && client.final == old(client.final)
      ensures message == old(message).(done := message.done, text := message.text)
      ensures ok ==> message.done && client.final.Keys == old(client.final.Keys) + {message.id}
      ensures ok ==> exists n :: 0 <= n < |resp.output| && resp.output[n].id == message.id
      ensures ok ==> forall n :: 0 <= n < |resp.output| && resp.output[n].id == message.id ==>
                Told(decode, client, resp.output[n])
      ensures ok <==> MessageFits(resp, old(SoFar()), maxBytes)
    {
      hide Heard, DeltaSize, FirstWith;
      var found := TerminalOutputItem(resp, message.id, Message);
      if !found.Found? {
        return false;
      }
      var item := resp.output[found.at];
      var i := Index(message.id);
      ok := ExtendMessageTo(i, Concat(item.parts));
      if ok {
        CloseMessage(i, item);
        OnlyItemTold(decode, client, resp, found.at);
      }
    }

    /** Sends what `terminalText` adds to the streamed text, if it only adds. */
    method ExtendMessageTo(i: nat, terminalText: string) returns (ok: bool)
      requires Running() && WithinLimit() && message.started && !message.done && i < |index| && index[i] == message.id
      modifies `frames, `sequenceNumber, `client, `message
      ensures Running() && WithinLimit() && message == old(message).(text := message.text)
      ensures client.final == old(client.final) && Frozen(old(client), client)
      ensures ok ==> message.text == terminalText
      ensures ok <==> old(message.text) <= terminalText && |reasoning.text| + |terminalText| + calls.bytes <= maxBytes
    {
      hide Heard, DeltaSize, FirstWith;
      if terminalText == message.text {
        return true;
      }
      var suffix := Reconcile.TerminalStreamSuffix(terminalText, message.text);
      if suffix.Mismatch? {
        return false;
      }
      if |reasoning.text| + |message.text| + calls.bytes + |suffix.text| > maxBytes {
        return false;
      }
      if suffix.text != "" {
        ExtendMessage(i, suffix.text);
      }
      ok := true;
    }

    method CloseMessage(i: nat, item: Item)
      requires Running() && message.started && !message.done && item.id == message.id
      requires i < |index| && index[i] == message.id
      modifies `frames, `sequenceNumber, `client, `message
      ensures Running() && Frozen(old(client), client) && message == old(message).(done := true)
      ensures client.order == old(client.order) && client.text == old(client.text)
      ensures client.final == old(client.final)[item.id := item]
    {
      hide Heard, DeltaSize, FirstWith, Tied, Advance, Allowed;
      MessageCloses(client, message, reasoning, calls, i, item);
      QuietEvent(client, message, reasoning, calls, TextDone(i, message.id, message.text), reasoning.summaryDone);
      Write(TextDone(i, message.id, message.text));
      MessageCloses(client, message, reasoning, calls, i, item);
      if message.part {
        Write(PartDone(i, message.id, message.text));
      }
      Write(ItemDone(i, item));
      message := message.(done := true);
    }

    /** One content part of a message delivered whole. */
    method WriteContentPart(i: nat, id: ItemId, part: string)
      requires Accepts(frames, client) && sequenceNumber == client.next
      requires client.phase == Phase.Running && At(client, i, id) && id in client.text && id !in client.part
      modifies `frames, `sequenceNumber, `client
      ensures Accepts(frames, client) && sequenceNumber == client.next
      ensures client == old(client).(next := client.next, text := old(client.text)[id := old(client.text)[id] + part])
    {
      hide Heard, DeltaSize, FirstWith, Allowed, Advance;
      WholeContentPart(client, i, id, part);
      Write(PartAdded(i, id));
      if part != "" {
        Write(TextDelta(i, id, part));
      }
      Write(TextDone(i, id, part));
      Write(PartDone(i, id, part));
    }

    method WriteWholeMessage(i: nat, item: Item)
      requires Accepts(frames, client) && sequenceNumber == client.next
      requires client.phase == Phase.Running && i == |client.order| && item.id !in client.order
      requires item.id !in client.open && item.id !in client.part && item.id !in client.arguments
      modifies `frames, `sequenceNumber, `client
      ensures Accepts(frames, client) && sequenceNumber == client.next
      ensures client == old(client).(next := client.next, order := old(client.order) + [item.id],
                                     text := old(client.text)[item.id := Concat(item.parts)],
                                     final := old(client.final)[item.id := item])
    {
      hide Heard, DeltaSize, FirstWith;
      ghost var before := client;
      Write(ItemAdded(i, item.(parts := [])));
      ghost var added := client;
      ghost var told := "";
      assert item.parts[0..] == item.parts;
      for s := 0 to |item.parts|
        invariant Accepts(frames, client) && sequenceNumber == client.next
        invariant told + Concat(item.parts[s..]) == Concat(item.parts)
        invariant client == added.(next := client.next, text := before.text[item.id := told])
      {
        assert item.parts[s..][0] == item.parts[s] && item.parts[s..][1..] == item.parts[s + 1..];
        Overwritten(before.text, item.id, told, told + item.parts[s]);
        assert told + item.parts[s] + Concat(item.parts[s + 1..])
          == told + (item.parts[s] + Concat(item.parts[s + 1..]));
        WriteContentPart(i, item.id, item.parts[s]);
        told := told + item.parts[s];
      }
      assert told == Concat(item.parts);
      Write(ItemDone(i, item));
      assert client.open == before.open;
    }

    /** With no message streamed, every message of the response is announced whole. */
    method WriteUnstreamedMessages(resp: Response)
      requires Accepts(frames, client) && sequenceNumber == client.next && index == client.order
      requires Addressed(resp) && Settling(client) && AllTold(decode, client, resp)
      requires forall n :: 0 <= n < |resp.output| && resp.output[n].kind == Message ==> resp.output[n].id !in index
      modifies `frames, `sequenceNumber, `client, `index
      ensures Accepts(frames, client) && sequenceNumber == client.next && index == client.order
      ensures Messaging(decode, old(client), client, resp, |resp.output|)
    {
      hide Heard, DeltaSize, FirstWith;
      for n := 0 to |resp.output|
        invariant Accepts(frames, client) && sequenceNumber == client.next && index == client.order
        invariant Messaging(decode, old(client), client, resp, n)
      {
        var item := resp.output[n];
        ghost var before := client;
        if item.kind == Message {
          var i := Index(item.id);
          WriteWholeMessage(i, item);
          WritesMessage(decode, old(client), before, client, resp, n);
        } else {
          SkipsItem(decode, old(client), client, resp, n);
        }
      }
    }

    /** Announces and closes a call none of whose arguments were streamed. */
    method WriteWholeCall(i: nat, item: Item)
      requires Accepts(frames, client) && sequenceNumber == client.next
      requires Settling(client) && i == |client.order| && item.id !in client.order
      requires IsToolCall(item)
      modifies `frames, `sequenceNumber, `client
      ensures Accepts(frames, client) && sequenceNumber == client.next
      ensures Whole(old(client), client, item, if item.kind == FunctionCall then item.arguments else "")
    {
      hide Heard, DeltaSize, FirstWith;
      Write(ItemAdded(i, item));
      if item.kind == FunctionCall {
        if item.arguments != "" {
          Write(ArgumentsDelta(i, item.id, item.arguments));
          Overwritten(old(client.text), item.id, "", item.arguments);
          assert "" + item.arguments == item.arguments;
        }
        Write(ArgumentsDone(i, item.id, item.arguments));
      }
      Write(ItemDone(i, item));
      assert client.open == old(client.open);
    }

    /** Gives a streamed call the rest of its arguments and closes it. */
    method FinishCall(i: nat, item: Item, remaining: string)
      requires Accepts(frames, client) && sequenceNumber == client.next
      requires Settling(client) && At(client, i, item.id) && item.kind == FunctionCall
      modifies `frames, `sequenceNumber, `client
      ensures Accepts(frames, client) && sequenceNumber == client.next
      ensures ClosedOut(old(client), client, item, old(client.text)[item.id] + remaining)
    {
      hide Heard, DeltaSize, FirstWith;
      if remaining != "" {
        Write(ArgumentsDelta(i, item.id, remaining));
      } else {
        assert client.text[item.id] + remaining == client.text[item.id];
        assert client.text == client.text[item.id := client.text[item.id]];
      }
      Write(ArgumentsDone(i, item.id, item.arguments));
      Write(ItemDone(i, item));
    }

    /** Closes out the turn's calls, in the order of the terminal response. */
    method WriteResponseOutputEvents(resp: Response, ghost at: map<ItemId, nat>)
      requires Accepts(frames, client) && sequenceNumber == client.next && index == client.order
      requires Addressed(resp) && Reconciled(decode, resp, calls, at) && CallItems(calls)
      requires Closing(decode, client, resp, calls, at, index, 0)
      modifies `frames, `sequenceNumber, `client, `index
      ensures Accepts(frames, client) && sequenceNumber == client.next
      ensures Closing(decode, client, resp, calls, at, old(index), |resp.output|)
    {
      hide Heard, DeltaSize, FirstWith;
      for n := 0 to |resp.output|
        invariant Accepts(frames, client) && sequenceNumber == client.next && index == client.order
        invariant Closing(decode, client, resp, calls, at, old(index), n)
      {
        var item := resp.output[n];
        ghost var before := client;
        if item.kind == FunctionCall && item.id in calls.streams {
          assert Owes(decode, resp, item.id, calls.streams[item.id], at[item.id]);
          assert at[item.id] == n;
          var i := Index(item.id);
          FinishCall(i, item, calls.streams[item.id].remaining);
          ClosesStreamed(decode, before, client, resp, calls, at, old(index), n);
        } else if IsToolCall(item) {
          var i := Index(item.id);
          WriteWholeCall(i, item);
          ClosesWhole(decode, before, client, resp, calls, at, old(index), n);
        } else {
          assert forall id :: id in calls.streams ==> Names(id, FunctionCall);
          PassesOver(decode, client, resp, calls, at, old(index), n);
        }
      }
    }

    /** Every check made before anything terminal is written. */
    method ReconcileTerminal(resp: Response) returns (ok: bool, ghost at: map<ItemId, nat>)
      requires Streaming() && Addressed(resp)
      modifies `frames, `sequenceNumber, `client, `index, `reasoning, `calls
      ensures Running() && WithinLimit() && index == old(index) && client.final == map[]
      ensures reasoning == old(reasoning).(text := reasoning.text)
      ensures ok && reasoning.started ==>
        SaidAs(resp, reasoning.id, reasoning.text) && !Renames(resp, reasoning.id, Reasoning)
      ensures ok ==> Reconciled(decode, resp, calls, at) && SoFar() == AfterReasoning(resp, old(SoFar()))
      ensures ok <==>
        && ReasoningFits(resp, old(SoFar()), maxBytes) && CallsFit(decode, resp, old(SoFar()).calls)
        && measure(resp).Some? && measure(resp).value <= maxBytes
    {
      hide Heard, FirstWith;
      ok := ReconcileStreamedReasoning(resp);
      if !ok {
        return false, map[];
      }
      ghost var was := calls;
      ok, at := ReconcileStreamedToolCalls(resp);
      SameCallsTied(client, message, reasoning, was, calls);
      FragmentsStay(was, calls);
      if !ok {
        return false, at;
      }
      var payload := measure(resp);
      ok := payload.Some? && payload.value <= maxBytes;
    }

    /** Closes the streamed reasoning, or announces the terminal one. */
    method CompleteReasoning(resp: Response) returns (ok: bool)
      requires Running() && Addressed(resp) && !reasoning.done && client.final == map[]
      requires reasoning.started ==>
        SaidAs(resp, reasoning.id, reasoning.text) && !Renames(resp, reasoning.id, Reasoning)
      modifies `frames, `sequenceNumber, `client, `index, `reasoning
      ensures ok && Running() && reasoning.text == old(reasoning.text)
      ensures AllTold(decode, client, resp) && (reasoning.started ==> reasoning.done)
      ensures index == old(index) + if old(reasoning.started) then [] else FirstReasoningIds(resp.output)
    {
      hide Heard, DeltaSize, FirstWith;
      ok := FinishReasoningItem(Some(resp));
      ghost var between := client;
      assert AllTold(decode, between, resp);
      ReconcileUnstreamedReasoning(resp);
    }

    /** Completes the streamed message, or announces the response's messages whole. */
    method CompleteMessage(resp: Response) returns (ok: bool)
      requires Running() && WithinLimit() && Addressed(resp) && !message.done && AllTold(decode, client, resp)
      requires reasoning.started ==> reasoning.done
      modifies `frames, `sequenceNumber, `client, `index, `message
      ensures !ok ==> Running() && WithinLimit() && !message.done
      ensures ok ==>
        && Accepts(frames, client) && sequenceNumber == client.next && index == client.order
        && Settling(client) && AllTold(decode, client, resp)
        && client.open == calls.streams.Keys && CallsTied(client.text, calls) && OnlyStreamedCalls(index, calls)
        && index == old(index) + if old(message.started) then [] else MessageIds(resp.output)
      ensures ok && old(message.started) ==> old(message.id) in Ids(resp.output)
      ensures ok <==> MessageFits(resp, old(SoFar()), maxBytes)
    {
      hide Heard, DeltaSize, FirstWith;
      ghost var before := client;
      if message.started {
        ok := FinishStreamedMessage(resp);
        if ok {
          ToldGrows(decode, before, client, resp, {message.id});
          TiedSettles(client, message, reasoning, calls);
        }
      } else {
        AnnounceMessages(resp);
        ok := true;
      }
    }

    method AnnounceMessages(resp: Response)
      requires Running() && Addressed(resp) && !message.started && AllTold(decode, client, resp)
      requires reasoning.started ==> reasoning.done
      modifies `frames, `sequenceNumber, `client, `index
      ensures Accepts(frames, client) && sequenceNumber == client.next && index == client.order
      ensures Settling(client) && AllTold(decode, client, resp)
      ensures client.open == calls.streams.Keys && CallsTied(client.text, calls) && OnlyStreamedCalls(index, calls)
      ensures index == old(index) + MessageIds(resp.output)
    {
      hide Heard, DeltaSize, FirstWith;
      ghost var before := client;
      TiedSettles(client, message, reasoning, calls);
      MessageIdsAreMessages(resp.output);
      WriteUnstreamedMessages(resp);
      assert resp.output[..|resp.output|] == resp.output;
      SameTextsTie(before.text, client.text, calls);
    }

    /** Delivers the calls and completes the stream. */
    method CompleteCalls(resp: Response, ghost at: map<ItemId, nat>)
      requires Accepts(frames, client) && sequenceNumber == client.next && index == client.order
      requires Settling(client) && AllTold(decode, client, resp) && Addressed(resp)
        && Reconciled(decode, resp, calls, at)
      requires client.open == calls.streams.Keys && CallsTied(client.text, calls) && OnlyStreamedCalls(index, calls)
      modifies `frames, `sequenceNumber, `client, `index
      ensures Accepts(frames, client) && client.phase == Ended
      ensures |frames| > 0 && frames[|frames| - 1].event == Completed(resp)
      ensures AllTold(decode, client, resp) && forall id :: id in client.order ==> id in client.final
      ensures client.order == old(index) + UnstreamedCallIds(resp.output, calls.streams.Keys)
    {
      hide Heard, DeltaSize, FirstWith;
      ReadyToClose(decode, client, resp, calls, at);
      WriteResponseOutputEvents(resp, at);
      AllClosed(decode, client, resp, calls, at, old(index));
      ghost var told := client;
      Write(Completed(resp));
      assert AllTold(decode, told, resp);
      ToldGrows(decode, told, client, resp, {});
    }

    /** The terminal event: reconcile, close everything, complete; or fail with everything closed. */
    method OnResponse(response: Response) returns (result: Result)
      requires Streaming() && Addressed(response)
      modifies this
      ensures result.FailureWritten? ==> Failure()
      ensures result.FailureWritten? || result.Delivered?
      ensures result.Delivered? <==>
        Delivers(decode, measure, Rendered(response, suppressReasoning), old(SoFar()), maxBytes)
      ensures result.Delivered? ==> result.response == Rendered(response, suppressReasoning)
      ensures result.Delivered? ==> Completion(old(index), result.response)
    {
      hide Heard, FirstWith;
      var resp := FilterResponseReasoning(response, suppressReasoning);
      RenderedAddressed(response, suppressReasoning);
      ghost var at: map<ItemId, nat>;
      var ok;
      ok, at := ReconcileTerminal(resp);
      if ok {
        ok := CompleteOutput(resp, at);
      }
      if ok {
        return Delivered(resp);
      }
      WriteFailure();
      result := FailureWritten;
    }

    /** With every check passed: the reasoning, the message, the calls, and the end. */
    method CompleteOutput(resp: Response, ghost at: map<ItemId, nat>) returns (ok: bool)
      requires Running() && WithinLimit() && Addressed(resp) && client.final == map[]
      requires !reasoning.done && !message.done && Reconciled(decode, resp, calls, at)
      requires reasoning.started ==>
        SaidAs(resp, reasoning.id, reasoning.text) && !Renames(resp, reasoning.id, Reasoning)
      modifies `frames, `sequenceNumber, `client, `index, `reasoning, `message
      ensures !ok ==> Running() && WithinLimit() && !message.done
      ensures ok ==> Completion(old(index), resp)
      ensures ok <==> MessageFits(resp, old(SoFar()), maxBytes)
    {
      hide Heard, DeltaSize, FirstWith, Renames, SaidAs, AllTold, Reconciled, TextOf, Running, Tied, Settling,
           CallsTied, Announcements;
      Announced();
      EndsInOrder(index, message, reasoning, calls, resp);
      ok := CompleteReasoning(resp);
      if ok {
        ok := CompleteMessage(resp);
        if ok {
          ItemsReturn(decode, old(index), old(message), old(reasoning), calls, resp, at);
          CompleteCalls(resp, at);
        }
      }
    }

    lemma Announced()
      requires Running()
      ensures Announcements(index, message, reasoning, calls)
      ensures (reasoning.started ==> Names(reasoning.id, Reasoning)) && (message.started ==> Names(message.id, Message))
      ensures forall id :: id in calls.streams ==> Names(id, FunctionCall)
    {
    }

    /** One event that is not a response and not a cancellation, and keeps to the ids announced. */
    method OnEvent(e: GatewayEvent) returns (failed: bool)
      requires Streaming() && Typed(e) && Stable(SoFar(), e, suppressReasoning, maxBytes)
      requires !e.Cancelled? && !(e.Finished? && e.response.Some?)
      modifies this
      ensures failed <==> !Taken(old(SoFar()), e, suppressReasoning, maxBytes)
      ensures failed ==> Failure()
      ensures !failed ==> Streaming() && index == SeenWith(old(index), Sight(e, suppressReasoning))
      ensures !failed ==> SoFar() == Add(old(SoFar()), e, suppressReasoning)
    {
      hide Heard, FirstWith;
      if e.ReasoningDelta? {
        failed := OnReasoningDelta(e.id, e.delta);
      } else if e.MessageDelta? {
        failed := OnMessageDelta(e.id, e.delta);
      } else if e.ToolCallDelta? {
        failed := OnToolCallDelta(e.id, e.item, e.delta);
      } else {
        WriteFailure();
        failed := true;
      }
    }

    /** The events end without a terminal one. */
    method FailAtEnd()
      requires Streaming()
      modifies this
      ensures Failure()
    {
      hide Heard, DeltaSize;
      WriteFailure();
    }

    lemma Bounded()
      requires Streaming()
      ensures Total(SoFar()) <= maxBytes && Heard(frames) == Total(SoFar())
    {
      hide Heard;
    }

    lemma FailureIsObserved()
      requires Failure()
      ensures WellFormed(frames) && EndsInFailure(frames, Observed(frames))
      ensures forall k :: 0 <= k < |frames| ==> WholeArguments(decode, frames, k)
    {
      hide WholeArguments;
      AcceptsIsObserved(frames, client);
      AllArgumentsAreWhole(decode, frames);
    }

    lemma CompletionIsObserved(seen: seq<ItemId>, resp: Response)
      requires Completion(seen, resp)
      ensures WellFormed(frames) && EndsInResponse(decode, frames, Observed(frames), seen, resp)
      ensures forall k :: 0 <= k < |frames| ==> WholeArguments(decode, frames, k)
    {
      hide WholeArguments;
      AcceptsIsObserved(frames, client);
      AllArgumentsAreWhole(decode, frames);
    }

    // ---- A fragment under an id the client was never told -----------------------------

    method WriteRefused(e: Event)
      requires Accepts(frames, client) && sequenceNumber == client.next && !Allowed(client, e)
      modifies `frames, `sequenceNumber
      ensures !Observed(frames).ok
    {
      hide Heard, DeltaSize, FirstWith;
      RefusedFrame(frames, client, Frame(sequenceNumber, e));
      frames := frames + [Frame(sequenceNumber, e)];
      sequenceNumber := sequenceNumber + 1;
    }

    /**
     Whether an event keeps to the ids announced. The writer itself does not ask: it
     goes on, as `OnEvent` tells or as `OnUnstable` does.
     */
    method StaysStable(e: GatewayEvent) returns (stable: bool)
      requires Streaming()
      ensures stable == Stable(SoFar(), e, suppressReasoning, maxBytes)
    {
      hide Heard, FirstWith;
      match e {
        case ReasoningDelta(id, delta) =>
          stable := suppressReasoning || delta == "" || id == Unnamed || !reasoning.started || id == reasoning.id;
        case MessageDelta(id, _) =>
          stable := id == Unnamed || !message.started || id == message.id;
        case ToolCallDelta(id, item, delta) =>
          stable := !CarriesCall(id, item) || delta == ""
            || |reasoning.text| + |message.text| + calls.bytes + |delta| > maxBytes
                    || id in calls.streams || item.value.id == id;
        case _ =>
          stable := true;
      }
    }

    /** The writer goes by the new id all the same; the first frame to do so is refused. */
    method OnUnstable(e: GatewayEvent)
      requires Streaming() && Typed(e) && !Stable(SoFar(), e, suppressReasoning, maxBytes)
      modifies this
      ensures !Observed(frames).ok
    {
      hide Heard, FirstWith;
      if e.ReasoningDelta? {
        RenameReasoning(e.id, e.delta);
      } else if e.MessageDelta? {
        RenameMessage(e.id, e.delta);
      } else {
        MisnameCall(e.id, e.item.value, e.delta);
      }
    }

    method RenameReasoning(id: ItemId, delta: string)
      requires Streaming() && reasoning.started && id != reasoning.id && Names(id, Reasoning)
      modifies this
      ensures !Observed(frames).ok
    {
      hide Heard, FirstWith;
      assert id !in client.open;
      var i := Index(id);
      if |reasoning.text| + |message.text| + calls.bytes + |delta| <= maxBytes {
        reasoning := reasoning.(id := id, text := reasoning.text + delta);
        WriteRefused(SummaryDelta(i, id, 0, delta));
      } else if !reasoning.summaryDone {
        reasoning := reasoning.(id := id, summaryDone := true);
        WriteRefused(SummaryTextDone(i, id, 0, reasoning.text));
      } else {
        reasoning := reasoning.(id := id, done := true);
        WriteRefused(ItemDone(i, Item(id, Reasoning, if reasoning.text != "" then [reasoning.text] else [], "")));
      }
    }

    method RenameMessage(id: ItemId, delta: string)
      requires Streaming() && message.started && id != message.id && Names(id, Message)
      modifies this
      ensures !Observed(frames).ok
    {
      hide Heard, FirstWith, Observed, Tied, Allowed;
      AnotherMessageIsNotOpen(client, message, reasoning, calls, id);
      CloseReasoningSummary();
      if |reasoning.text| + |message.text| + calls.bytes + |delta| <= maxBytes {
        var i := Index(id);
        TextNeedsOpenItem(client, i, id, delta);
        message := message.(id := id, text := message.text + delta);
        WriteRefused(TextDelta(i, id, delta));
      } else {
        var ok := FinishReasoningItem(None);
        CloseCalls();
        var i := Index(id);
        TextNeedsOpenItem(client, i, id, message.text);
        message := message.(id := id);
        WriteRefused(TextDone(i, id, message.text));
      }
    }

    method MisnameCall(id: ItemId, item: Item, delta: string)
      requires Streaming() && id !in calls.streams && item.id != id && Names(id, FunctionCall)
        && item.kind == FunctionCall
      modifies this
      ensures !Observed(frames).ok
    {
      hide Heard, FirstWith;
      CloseReasoningSummary();
      NewCallUnannounced(client, message, reasoning, calls, id);
      var announced := item.id in index;
      var i := Index(id);
      if announced {
        WriteRefused(ItemAdded(i, item));
      } else {
        Write(ItemAdded(i, item));
        WriteRefused(ArgumentsDelta(i, id, delta));
      }
    }
  }

  /** Cancellations, responses and everything else that is no fragment end the loop. */
  lemma EndsTheLoop(g: Progress, e: GatewayEvent, suppress: bool, limit: nat)
    ensures e.Cancelled? || e.Finished? ==> !Taken(g, e, suppress, limit) && Stable(g, e, suppress, limit)
  {
  }

  function LimitOf(maxOutputBytes: int): nat {
    if maxOutputBytes <= 0 then DEFAULT_MAX_TURN_OUTPUT_BYTES else maxOutputBytes
  }

  /** The `n`-th event is a fragment that is taken. */
  predicate TakenAt(events: seq<GatewayEvent>, n: nat, suppress: bool, limit: nat)
    requires n < |events|
  {
    Taken(StreamedBefore(events, n, suppress), events[n], suppress, limit)
  }

  predicate StableAt(events: seq<GatewayEvent>, n: nat, suppress: bool, limit: nat)
    requires n < |events|
  {
    Stable(StreamedBefore(events, n, suppress), events[n], suppress, limit)
  }

  /** The `n`-th event is a response that completes the stream. */
  predicate DeliveredAt(events: seq<GatewayEvent>, n: nat, suppress: bool, limit: nat, decode: Reconcile.Decoder,
                        measure: Response -> Option<nat>)
    requires n <= |events|
  {
    && n < |events| && events[n].Finished? && events[n].response.Some?
    && Delivers(decode, measure, Rendered(events[n].response.value, suppress), StreamedBefore(events, n, suppress),
                limit)
  }

  /**
   Arguments said to be whole are those their item was done with, and the fragments
   sent for the item add up to them, or to the same JSON value.
   */
  predicate WholeArguments(decode: Reconcile.Decoder, frames: seq<Frame>, k: nat)
    requires k < |frames|
  {
    frames[k].event.ArgumentsDone? ==>
      var e, final := frames[k].event, Observed(frames).final;
      && e.id in final && final[e.id].arguments == e.arguments
      && Reconcile.Carries(decode, e.arguments, Gathered(frames, e.id))
  }

  lemma DoneArgumentsAreWhole(decode: Reconcile.Decoder, frames: seq<Frame>, k: nat)
    requires k < |frames| && Observed(frames).ok
    requires forall id :: id in Observed(frames).arguments ==> SaidRightly(decode, Observed(frames), id)
    ensures WholeArguments(decode, frames, k)
  {
    hide Observed, Gathered;
    if frames[k].event.ArgumentsDone? {
      ArgumentsAreSaidOnce(frames, k);
      ClientGathers(frames, frames[k].event.id);
    }
  }

  lemma AllArgumentsAreWhole(decode: Reconcile.Decoder, frames: seq<Frame>)
    requires Observed(frames).ok
    requires forall id :: id in Observed(frames).arguments ==> SaidRightly(decode, Observed(frames), id)
    ensures forall k :: 0 <= k < |frames| ==> WholeArguments(decode, frames, k)
  {
    hide Observed, WholeArguments;
    forall k | 0 <= k < |frames| ensures WholeArguments(decode, frames, k) {
      DoneArgumentsAreWhole(decode, frames, k);
    }
  }

  /**
   One turn's events turned into one Responses stream. Events are read up to the
   `used`-th, the first that is not a fragment taken. The stream is well formed exactly
   if all of them keep to the ids announced, and it is delivered exactly if the last
   one read is a response that fits what was streamed.
   */
  method WriteResponseStreamEvents(events: seq<GatewayEvent>, maxOutputBytes: int, suppressReasoning: bool,
                                   decode: Reconcile.Decoder, measure: Response -> Option<nat>)
    returns (frames: seq<Frame>, result: Result, ghost used: nat)
    requires forall i :: 0 <= i < |events| ==> Typed(events[i])
    ensures used <= |events|
    ensures forall i :: 0 <= i < used ==>
      StableAt(events, i, suppressReasoning, LimitOf(maxOutputBytes))
        && TakenAt(events, i, suppressReasoning, LimitOf(maxOutputBytes))
    ensures used < |events| ==>
      result.Derailed? || !TakenAt(events, used, suppressReasoning, LimitOf(maxOutputBytes))
    ensures Total(StreamedBefore(events, used, suppressReasoning))
         <= if maxOutputBytes <= 0 then 33_554_432 else maxOutputBytes
    ensures result.Derailed? <==> used < |events| && !StableAt(events, used, suppressReasoning, LimitOf(maxOutputBytes))
    ensures result.Derailed? ==> forall more: seq<Frame> :: !WellFormed(frames + more)
    ensures result.Abandoned? <==> used < |events| && events[used].Cancelled?
    ensures !result.Abandoned? && !result.Derailed? ==>
      WellFormed(frames) && forall k :: 0 <= k < |frames| ==> WholeArguments(decode, frames, k)
    ensures result.FailureWritten? ==> EndsInFailure(frames, Observed(frames))
    ensures result.Delivered? <==>
      DeliveredAt(events, used, suppressReasoning, LimitOf(maxOutputBytes), decode, measure)
    ensures result.Delivered? ==>
      && result.response == Rendered(events[used].response.value, suppressReasoning)
      && EndsInResponse(decode, frames, Observed(frames), FirstSight(events[..used], suppressReasoning),
                        result.response)
  {
    hide StreamWriter.Streaming, StreamWriter.Failure, StreamWriter.Completion, WholeArguments, Add, Delivers, Taken,
         Stable, Heard, EndsInResponse, EndsInFailure;
    var limit := LimitOf(maxOutputBytes);
    var w := new StreamWriter(limit, suppressReasoning, decode, measure);
    used := 0;
    for n := 0 to |events|
      invariant fresh(w) && w.Streaming() && used == n
      invariant w.decode == decode && w.suppressReasoning == suppressReasoning && w.measure == measure
        && w.maxBytes == limit
      invariant w.index == FirstSight(events[..n], suppressReasoning)
      invariant w.SoFar() == StreamedBefore(events, n, suppressReasoning)
      invariant forall i :: 0 <= i < n ==>
        StableAt(events, i, suppressReasoning, limit) && TakenAt(events, i, suppressReasoning, limit)
    {
      assert events[..n + 1] == events[..n] + [events[n]];
      FirstSightGrows(events[..n], events[n], suppressReasoning);
      EndsTheLoop(StreamedBefore(events, n, suppressReasoning), events[n], suppressReasoning, limit);
      w.Bounded();
      if events[n].Cancelled? {
        return w.frames, Abandoned, used;
      }
      if events[n].Finished? && events[n].response.Some? {
        result := w.OnResponse(events[n].response.value);
        if result.Delivered? {
          w.CompletionIsObserved(FirstSight(events[..n], suppressReasoning), result.response);
        } else {
          w.FailureIsObserved();
        }
        return w.frames, result, used;
      }
      var stable := w.StaysStable(events[n]);
      if !stable {
        w.OnUnstable(events[n]);
        forall more ensures !WellFormed(w.frames + more) { RefusedForGood(w.frames, more); }
        return w.frames, Derailed, used;
      }
      var failed := w.OnEvent(events[n]);
      if failed {
        w.FailureIsObserved();
        return w.frames, FailureWritten, used;
      }
      used := n + 1;
    }
    w.Bounded();
    w.FailAtEnd();
    w.FailureIsObserved();
    return w.frames, FailureWritten, used;
  }
}
