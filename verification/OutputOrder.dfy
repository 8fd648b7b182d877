/**
 Output items, and the events the gateway's turn runner sends about them
 (internal/copilotgw/turn_runner.go). The prefix of an item's id names its kind;
 here the prefix is the constructor.
 */
module ResponseItems {
  import opened Common

  datatype ItemId = Unnamed | MessageId(key: string) | ReasoningId(key: string) | ToolId(kind: ToolKind, call: string)

  datatype ItemType = Message | Reasoning | FunctionCall | CustomToolCall | ToolSearchCall

  /** `parts` is a message's content or a reasoning item's summary; `arguments` a call's arguments. */
  datatype Item = Item(id: ItemId, kind: ItemType, parts: seq<string>, arguments: string)

  datatype Response = Response(output: seq<Item>, text: string)

  datatype GatewayEvent =
    | ReasoningDelta(id: ItemId, delta: string)
    | MessageDelta(id: ItemId, delta: string)
    | ToolCallDelta(id: ItemId, item: Option<Item>, delta: string)
    | Finished(response: Option<Response>)
    | GatewayError
    | DeadlineExceeded
    | Cancelled

  function ToolType(kind: ToolKind): ItemType {
    match kind
    case Function => FunctionCall
    case Custom => CustomToolCall
    case ToolSearch => ToolSearchCall
  }

  /** The item type an id's prefix stands for. */
  predicate Names(id: ItemId, kind: ItemType) {
    match id
    case Unnamed => false
    case MessageId(_) => kind == Message
    case ReasoningId(_) => kind == Reasoning
    case ToolId(tool, _) => kind == ToolType(tool)
  }

  function Ids(items: seq<Item>): (ids: seq<ItemId>)
    ensures |ids| == |items| && forall i :: 0 <= i < |items| ==> ids[i] == items[i].id
  {
    if items == [] then [] else [items[0].id] + Ids(items[1..])
  }

  function Concat(parts: seq<string>): string {
    if parts == [] then "" else parts[0] + Concat(parts[1..])
  }

  /** The elements outside `gone`, in order. */
  function Without(ids: seq<ItemId>, gone: set<ItemId>): seq<ItemId> {
    if ids == [] then []
    else if ids[0] in gone then Without(ids[1..], gone)
    else [ids[0]] + Without(ids[1..], gone)
  }

  lemma {:induction false} WithoutMembers(ids: seq<ItemId>, gone: set<ItemId>)
    ensures forall id :: id in Without(ids, gone) <==> id in ids && id !in gone
  {
    if ids != [] { WithoutMembers(ids[1..], gone); }
  }

  predicate Distinct(ids: seq<ItemId>) {
    ids == [] || (ids[0] !in ids[1..] && Distinct(ids[1..]))
  }

  lemma {:induction false} DistinctIndices(ids: seq<ItemId>, i: nat, j: nat)
    requires Distinct(ids) && i < j < |ids|
    ensures ids[i] != ids[j]
  {
    if i > 0 {
      DistinctIndices(ids[1..], i - 1, j - 1);
    } else {
      assert ids[j] == ids[1..][j - 1];
    }
  }

  lemma {:induction false} DistinctAppend(ids: seq<ItemId>, id: ItemId)
    requires Distinct(ids) && id !in ids
    ensures Distinct(ids + [id])
  {
    if ids != [] {
      DistinctAppend(ids[1..], id);
      assert (ids + [id])[1..] == ids[1..] + [id];
    }
  }

  lemma {:induction false} WithoutDistinct(ids: seq<ItemId>, gone: set<ItemId>)
    requires Distinct(ids)
    ensures Distinct(Without(ids, gone))
  {
    if ids != [] {
      WithoutDistinct(ids[1..], gone);
      WithoutMembers(ids[1..], gone);
      var rest := Without(ids[1..], gone);
      assert ([ids[0]] + rest)[1..] == rest;
    }
  }

  function Elements(ids: seq<ItemId>): set<ItemId> {
    set id | id in ids
  }

  lemma {:induction false} WithoutTwice(ids: seq<ItemId>, a: set<ItemId>, b: set<ItemId>)
    ensures Without(Without(ids, a), b) == Without(ids, a + b)
  {
    if ids != [] {
      WithoutTwice(ids[1..], a, b);
      if ids[0] !in a {
        var rest := Without(ids[1..], a);
        assert ([ids[0]] + rest)[1..] == rest;
      }
    }
  }

  lemma {:induction false} WithoutAppend(a: seq<ItemId>, b: seq<ItemId>, gone: set<ItemId>)
    ensures Without(a + b, gone) == Without(a, gone) + Without(b, gone)
  {
    if a == [] {
      assert a + b == b;
    } else {
      WithoutAppend(a[1..], b, gone);
      assert (a + b)[1..] == a[1..] + b && (a + b)[0] == a[0];
      var x, y := Without(a[1..], gone), Without(b, gone);
      assert ([a[0]] + x) + y == [a[0]] + (x + y);
    }
  }

  lemma {:induction false} WithoutNothing(ids: seq<ItemId>, gone: set<ItemId>)
    requires forall id :: id in ids ==> id !in gone
    ensures Without(ids, gone) == ids
  {
    if ids != [] { WithoutNothing(ids[1..], gone); }
  }

  lemma {:induction false} WithoutAll(ids: seq<ItemId>, gone: set<ItemId>)
    requires forall id :: id in ids ==> id in gone
    ensures Without(ids, gone) == []
  {
    if ids != [] { WithoutAll(ids[1..], gone); }
  }

  function Seen(ids: seq<ItemId>, id: ItemId): seq<ItemId> {
    if id in ids then ids else ids + [id]
  }

  /** The item a stream event is the first or a later sight of; an empty fragment shows nothing. */
  function Sight(e: GatewayEvent, suppressReasoning: bool): Option<ItemId> {
    match e
    case ReasoningDelta(id, delta) => if suppressReasoning || delta == "" then None else Some(id)
    case MessageDelta(id, _) => Some(id)
    case ToolCallDelta(id, _, delta) => if delta == "" then None else Some(id)
    case _ => None
  }

  function SeenWith(ids: seq<ItemId>, sight: Option<ItemId>): seq<ItemId> {
    if sight.Some? then Seen(ids, sight.value) else ids
  }

  /** The items of an event sequence in the order they first appear. */
  function FirstSight(events: seq<GatewayEvent>, suppressReasoning: bool): seq<ItemId> {
    if events == [] then []
    else SeenWith(FirstSight(events[..|events| - 1], suppressReasoning), Sight(events[|events| - 1], suppressReasoning))
  }

  lemma FirstSightGrows(events: seq<GatewayEvent>, e: GatewayEvent, suppressReasoning: bool)
    ensures FirstSight(events + [e], suppressReasoning)
         == SeenWith(FirstSight(events, suppressReasoning), Sight(e, suppressReasoning))
  {
    assert (events + [e])[..|events|] == events;
  }

  lemma {:induction false} FirstSightDistinct(events: seq<GatewayEvent>, suppressReasoning: bool)
    ensures Distinct(FirstSight(events, suppressReasoning))
  {
    if events != [] {
      FirstSightDistinct(events[..|events| - 1], suppressReasoning);
      var ids := FirstSight(events[..|events| - 1], suppressReasoning);
      var sight := Sight(events[|events| - 1], suppressReasoning);
      if sight.Some? && sight.value !in ids { DistinctAppend(ids, sight.value); }
    }
  }
}

/**
 How the runner names and orders a turn's output items: announcement while the
 turn streams, then one terminal response arranged to match.
 */
module OutputOrder {
  import opened Common
  import opened ResponseItems

  // ---- Ordering ------------------------------------------------------------

  /** The first item called `id`, taken out; everything else keeps its place. */
  function Extract(items: seq<Item>, id: ItemId): (r: (seq<Item>, seq<Item>))
    ensures |r.0| + |r.1| == |items| && |r.0| <= 1
  {
    if items == [] then ([], [])
    else if items[0].id == id then ([items[0]], items[1..])
    else var (found, rest) := Extract(items[1..], id); (found, [items[0]] + rest)
  }

  /** The announced items in announcement order, then the others in their natural order. */
  function Arranged(items: seq<Item>, order: seq<ItemId>): seq<Item>
    decreases |order|
  {
    if order == [] then items
    else if order[0] == Unnamed then Arranged(items, order[1..])
    else var (found, rest) := Extract(items, order[0]); found + Arranged(rest, order[1..])
  }

  lemma {:induction false} ExtractKeepsItems(items: seq<Item>, id: ItemId)
    ensures var (found, rest) := Extract(items, id); multiset(found) + multiset(rest) == multiset(items)
  {
    if items != [] {
      assert items == [items[0]] + items[1..];
      ExtractKeepsItems(items[1..], id);
    }
  }

  /** Ordering never loses, adds or repeats an item. */
  lemma {:induction false} ArrangedIsPermutation(items: seq<Item>, order: seq<ItemId>)
    ensures multiset(Arranged(items, order)) == multiset(items)
    decreases |order|
  {
    if order != [] {
      if order[0] == Unnamed {
        ArrangedIsPermutation(items, order[1..]);
      } else {
        ExtractKeepsItems(items, order[0]);
        ArrangedIsPermutation(Extract(items, order[0]).1, order[1..]);
      }
    }
  }

  lemma {:induction false} ExtractIds(items: seq<Item>, id: ItemId)
    requires Distinct(Ids(items)) && id in Ids(items)
    ensures var (found, rest) := Extract(items, id);
            Ids(found) == [id] && Ids(rest) == Without(Ids(items), {id})
  {
    var ids := Ids(items);
    var tail := Ids(items[1..]);
    assert ids == [items[0].id] + tail && ids[1..] == tail && ids[0] == items[0].id;
    if items[0].id == id {
      WithoutNothing(tail, {id});
      assert Ids([items[0]]) == [items[0].id] + Ids([]) by { assert [items[0]][1..] == []; }
    } else {
      ExtractIds(items[1..], id);
      var (found, rest) := Extract(items[1..], id);
      assert ([items[0]] + rest)[1..] == rest;
    }
  }

  /** Announced first, in order; the rest behind them, undisturbed. */
  lemma {:induction false} ArrangedIds(items: seq<Item>, order: seq<ItemId>)
    requires Distinct(Ids(items)) && Distinct(order)
    requires forall id :: id in order ==> id in Ids(items) && id != Unnamed
    ensures Ids(Arranged(items, order)) == order + Without(Ids(items), Elements(order))
    decreases |order|
  {
    var ids := Ids(items);
    if order == [] {
      assert Elements(order) == {};
      WithoutNothing(ids, {});
      assert order + ids == ids;
    } else {
      var first, others := order[0], order[1..];
      var (found, rest) := Extract(items, first);
      ExtractIds(items, first);
      WithoutDistinct(ids, {first});
      WithoutMembers(ids, {first});
      assert forall id :: id in others ==> id in order && id != first;
      ArrangedIds(rest, others);
      assert {first} + Elements(others) == Elements(order);
      WithoutTwice(ids, {first}, Elements(others));
      IdsAppend(found, Arranged(rest, others));
      Regroup(order, Without(ids, Elements(order)));
    }
  }

  lemma Regroup(order: seq<ItemId>, rest: seq<ItemId>)
    requires order != []
    ensures [order[0]] + (order[1..] + rest) == order + rest
  {
  }

  lemma {:induction false} IdsAppend(a: seq<Item>, b: seq<Item>)
    ensures Ids(a + b) == Ids(a) + Ids(b)
  {
  }

  lemma {:induction false} ExtractAbsent(items: seq<Item>, id: ItemId)
    requires id !in Ids(items)
    ensures Extract(items, id) == ([], items)
  {
    if items != [] {
      assert Ids(items) == [items[0].id] + Ids(items[1..]);
      assert Ids(items)[0] == items[0].id && Ids(items)[1..] == Ids(items[1..]);
      ExtractAbsent(items[1..], id);
      assert [items[0]] + items[1..] == items;
    }
  }

  /** Ordering keeps the ids distinct, whatever the order lists. */
  lemma {:induction false} ArrangedDistinct(items: seq<Item>, order: seq<ItemId>)
    requires Distinct(Ids(items))
    ensures Distinct(Ids(Arranged(items, order)))
    ensures forall id :: id in Ids(Arranged(items, order)) <==> id in Ids(items)
    decreases |order|
  {
    if order != [] && order[0] != Unnamed {
      var (found, rest) := Extract(items, order[0]);
      if order[0] in Ids(items) {
        ExtractIds(items, order[0]);
        WithoutDistinct(Ids(items), {order[0]});
        WithoutMembers(Ids(items), {order[0]});
        ArrangedDistinct(rest, order[1..]);
        IdsAppend(found, Arranged(rest, order[1..]));
        var tail := Ids(Arranged(rest, order[1..]));
        assert ([order[0]] + tail)[1..] == tail;
      } else {
        ExtractAbsent(items, order[0]);
        ArrangedDistinct(items, order[1..]);
        assert [] + Arranged(items, order[1..]) == Arranged(items, order[1..]);
      }
    } else if order != [] {
      ArrangedDistinct(items, order[1..]);
    }
  }

  // The source marks items as taken in place instead of removing them.

  function Untaken(items: seq<Item>, taken: seq<bool>): seq<Item>
    requires |items| == |taken|
  {
    if items == [] then []
    else if taken[0] then Untaken(items[1..], taken[1..])
    else [items[0]] + Untaken(items[1..], taken[1..])
  }

  lemma {:induction false} UntakenLast(items: seq<Item>, taken: seq<bool>)
    requires |items| == |taken| > 0
    ensures var n := |items| - 1;
            Untaken(items, taken) == Untaken(items[..n], taken[..n]) + (if taken[n] then [] else [items[n]])
  {
    var n := |items| - 1;
    if n > 0 {
      UntakenLast(items[1..], taken[1..]);
      assert items[..n][1..] == items[1..][..n - 1] && taken[..n][1..] == taken[1..][..n - 1];
    } else {
      assert items[1..] == [] && items[..n] == [];
    }
  }

  predicate Matches(items: seq<Item>, taken: seq<bool>, id: ItemId, i: int)
    requires |items| == |taken|
  {
    0 <= i < |items| && !taken[i] && items[i].id == id
  }

  predicate NoneBefore(items: seq<Item>, taken: seq<bool>, id: ItemId, i: nat)
    requires |items| == |taken|
  {
    forall j :: 0 <= j < i ==> !Matches(items, taken, id, j)
  }

  lemma NoneYet(items: seq<Item>, taken: seq<bool>, id: ItemId)
    requires |items| == |taken|
    ensures NoneBefore(items, taken, id, 0)
  {
  }

  lemma NoneMore(items: seq<Item>, taken: seq<bool>, id: ItemId, i: nat)
    requires |items| == |taken| && i < |items| && NoneBefore(items, taken, id, i) && (taken[i] || items[i].id != id)
    ensures NoneBefore(items, taken, id, i + 1)
  {
  }

  /** Marking the first untaken match is extracting it. */
  lemma {:induction false} MarkingExtracts(items: seq<Item>, taken: seq<bool>, id: ItemId, i: nat)
    requires |items| == |taken| && Matches(items, taken, id, i) && NoneBefore(items, taken, id, i)
    ensures Extract(Untaken(items, taken), id) == ([items[i]], Untaken(items, taken[i := true]))
  {
    if i == 0 {
      var rest := Untaken(items[1..], taken[1..]);
      assert ([items[0]] + rest)[1..] == rest;
      assert taken[0 := true][1..] == taken[1..];
    } else {
      assert !Matches(items, taken, id, 0);
      forall j | 0 <= j < i - 1 ensures !Matches(items[1..], taken[1..], id, j) {
        assert !Matches(items, taken, id, j + 1);
      }
      MarkingExtracts(items[1..], taken[1..], id, i - 1);
      assert taken[i := true][1..] == taken[1..][i - 1 := true];
      if !taken[0] {
        var rest := Untaken(items[1..], taken[1..]);
        assert ([items[0]] + rest)[1..] == rest && ([items[0]] + rest)[0] == items[0];
        assert items[0].id != id;
      }
    }
  }

  lemma {:induction false} NoMatchExtractsNothing(items: seq<Item>, taken: seq<bool>, id: ItemId)
    requires |items| == |taken| && NoneBefore(items, taken, id, |items|)
    ensures Extract(Untaken(items, taken), id) == ([], Untaken(items, taken))
  {
    if items != [] {
      assert !Matches(items, taken, id, 0);
      forall j | 0 <= j < |items| - 1 ensures !Matches(items[1..], taken[1..], id, j) {
        assert !Matches(items, taken, id, j + 1);
      }
      NoMatchExtractsNothing(items[1..], taken[1..], id);
      if !taken[0] {
        var rest := Untaken(items[1..], taken[1..]);
        assert ([items[0]] + rest)[1..] == rest && ([items[0]] + rest)[0] == items[0];
        assert items[0].id != id;
      }
    }
  }

  lemma {:induction false} NothingTaken(items: seq<Item>, taken: seq<bool>)
    requires |items| == |taken| && forall i :: 0 <= i < |taken| ==> !taken[i]
    ensures Untaken(items, taken) == items
  {
    if items != [] { NothingTaken(items[1..], taken[1..]); }
  }

  /** Fewer than two items cannot be reordered. */
  lemma {:induction false} ShortListsStay(items: seq<Item>, order: seq<ItemId>)
    requires |items| < 2 || order == []
    ensures Arranged(items, order) == items
    decreases |order|
  {
    if order != [] {
      ShortListsStay(items, order[1..]);
      if items != [] && order[0] != Unnamed {
        var (found, rest) := Extract(items, order[0]);
        ShortListsStay(rest, order[1..]);
        assert items[1..] == [];
      }
    }
  }

  /** Taking the first match moves it from the items still to arrange to the ones arranged. */
  lemma ArrangedTakes(out: seq<Item>, items: seq<Item>, taken: seq<bool>, order: seq<ItemId>, k: nat, i: nat)
    requires |items| == |taken| && k < |order| && order[k] != Unnamed
    requires i < |items| && !taken[i] && items[i].id == order[k] && NoneBefore(items, taken, order[k], i)
    ensures out + [items[i]] + Arranged(Untaken(items, taken[i := true]), order[k + 1..])
         == out + Arranged(Untaken(items, taken), order[k..])
  {
    assert order[k..][0] == order[k] && order[k..][1..] == order[k + 1..];
    MarkingExtracts(items, taken, order[k], i);
    var rest := Arranged(Untaken(items, taken[i := true]), order[k + 1..]);
    assert (out + [items[i]]) + rest == out + ([items[i]] + rest);
  }

  lemma ArrangedSkips(items: seq<Item>, taken: seq<bool>, order: seq<ItemId>, k: nat)
    requires |items| == |taken| && k < |order|
    requires order[k] == Unnamed || NoneBefore(items, taken, order[k], |items|)
    ensures Arranged(Untaken(items, taken), order[k + 1..]) == Arranged(Untaken(items, taken), order[k..])
  {
    assert order[k..][0] == order[k] && order[k..][1..] == order[k + 1..];
    if order[k] != Unnamed {
      NoMatchExtractsNothing(items, taken, order[k]);
      var rest := Arranged(Untaken(items, taken), order[k + 1..]);
      assert [] + rest == rest;
    }
  }

  method OrderOutputItems(items: seq<Item>, order: seq<ItemId>) returns (out: seq<Item>)
    ensures out == Arranged(items, order)
  {
    if |order| == 0 || |items| < 2 {
      ShortListsStay(items, order);
      return items;
    }
    hide Arranged, Untaken, Matches, NoneBefore;
    out := [];
    var taken := seq(|items|, _ => false);
    NothingTaken(items, taken);
    assert order[0..] == order;
    for k := 0 to |order|
      invariant |taken| == |items|
      invariant out + Arranged(Untaken(items, taken), order[k..]) == Arranged(items, order)
    {
      var i := 0;
      NoneYet(items, taken, order[k]);
      while i < |items| && (taken[i] || items[i].id == Unnamed || items[i].id != order[k])
        invariant 0 <= i <= |items|
        invariant order[k] != Unnamed ==> NoneBefore(items, taken, order[k], i)
      {
        if order[k] != Unnamed { NoneMore(items, taken, order[k], i); }
        i := i + 1;
      }
      if i < |items| {
        ArrangedTakes(out, items, taken, order, k, i);
        out := out + [items[i]];
        taken := taken[i := true];
      } else {
        ArrangedSkips(items, taken, order, k);
      }
    }
    assert order[|order|..] == [];
    ArrangedByNothing(Untaken(items, taken));
    out := AppendUntaken(out, items, taken);
  }

  lemma ArrangedByNothing(items: seq<Item>)
    ensures Arranged(items, []) == items
  {
  }

  method AppendUntaken(front: seq<Item>, items: seq<Item>, taken: seq<bool>) returns (out: seq<Item>)
    requires |items| == |taken|
    ensures out == front + Untaken(items, taken)
  {
    out := front;
    for i := 0 to |items|
      invariant out == front + Untaken(items[..i], taken[..i])
    {
      UntakenGrows(items, taken, i);
      if !taken[i] {
        out := out + [items[i]];
      }
    }
    assert items[..|items|] == items && taken[..|items|] == taken;
  }

  lemma UntakenGrows(items: seq<Item>, taken: seq<bool>, i: nat)
    requires |items| == |taken| && i < |items|
    ensures Untaken(items[..i + 1], taken[..i + 1])
         == Untaken(items[..i], taken[..i]) + if taken[i] then [] else [items[i]]
  {
    UntakenLast(items[..i + 1], taken[..i + 1]);
    assert items[..i + 1][..i] == items[..i] && taken[..i + 1][..i] == taken[..i];
  }

  // ---- Announcing ----------------------------------------------------------------

  /** An event as the runner sends it: the turn's own ids, and never an empty fragment of a call or of reasoning. */
  predicate Emitted(e: GatewayEvent, message: ItemId, reasoning: ItemId) {
    match e
    case ReasoningDelta(id, delta) => id == reasoning && id.ReasoningId? && delta != ""
    case MessageDelta(id, _) => id == message && id.MessageId?
    case ToolCallDelta(id, item, delta) =>
      id.ToolId? && id.kind == Function && item == Some(Item(id, FunctionCall, [], "")) && delta != ""
    case _ => false
  }

  function Resolve(consolidated: string, deltas: string): string {
    if consolidated != "" then consolidated else deltas
  }

  /** One more event leaves everything sent in the turn's names, and the order one sight longer. */
  lemma SendingKeepsOrder(sent: seq<GatewayEvent>, e: GatewayEvent, message: ItemId, reasoning: ItemId)
    requires forall i :: 0 <= i < |sent| ==> Emitted(sent[i], message, reasoning)
    requires Emitted(e, message, reasoning)
    ensures FirstSight(sent + [e], false) == Seen(FirstSight(sent, false), e.id)
    ensures forall i :: 0 <= i < |sent + [e]| ==> Emitted((sent + [e])[i], message, reasoning)
    ensures e.id != Unnamed
  {
    FirstSightGrows(sent, e, false);
  }

  /** Reasoning, message and calls of a turn before they are ordered. */
  function Natural(reasoning: Option<Item>, message: Option<Item>, calls: seq<Item>): seq<Item> {
    (if reasoning.Some? then [reasoning.value] else []) + (if message.Some? then [message.value] else []) + calls
  }

  /** A captured call's item; its id is derived from its kind as a streamed call's is. */
  predicate IsCallItem(item: Item) {
    item.id.ToolId? && item.kind == ToolType(item.id.kind)
  }

  /** The runner's output-item identity for one turn, its text gathered so far, and what it has sent. */
  datatype Turn = Turn(
    active: bool,
    message: ItemId,
    reasoning: ItemId,
    order: seq<ItemId>,
    deltas: string,
    consolidated: string,
    encrypted: string,
    sent: seq<GatewayEvent>)

  function NewTurn(active: bool): Turn {
    Turn(active, Unnamed, Unnamed, [], "", "", "", [])
  }

  function Announced(t: Turn, id: ItemId): Turn {
    if id == Unnamed || !t.active then t else t.(order := Seen(t.order, id))
  }

  function Sent(t: Turn, e: GatewayEvent): Turn {
    t.(sent := t.sent + [e])
  }

  function AfterDelta(t: Turn, delta: string, minted: string): Turn {
    if !t.active then t
    else
      var id := if t.message == Unnamed then MessageId(minted) else t.message;
      Sent(Announced(t.(message := id), id), MessageDelta(id, delta))
  }

  /** The id of the reasoning block, if the SDK names one; the first assignment wins. */
  function AfterReasoningDelta(t: Turn, delta: string, block: string, minted: string): Turn {
    if delta == "" then t
    else
      var u := if t.consolidated == "" then t.(deltas := t.deltas + delta) else t;
      if !t.active then u
      else
        var id := if t.reasoning == Unnamed then ReasoningId(if block != "" then block else minted) else t.reasoning;
        Sent(Announced(u.(reasoning := id), id), ReasoningDelta(id, delta))
  }

  function AfterToolCallDelta(t: Turn, call: string, delta: string): Turn {
    if delta == "" || !t.active then t
    else
      var id := ToolId(Function, call);
      Sent(Announced(t, id), ToolCallDelta(id, Some(Item(id, FunctionCall, [], "")), delta))
  }

  /** A consolidated text replaces the fragments, unless it is empty. */
  function AfterConsolidated(t: Turn, content: string, blob: Option<string>): Turn {
    var u := if content != "" then t.(consolidated := content, deltas := "") else t;
    if blob.Some? then u.(encrypted := blob.value) else u
  }

  datatype Step =
    | Attach
    | Delta(delta: string, minted: string)
    | Reasoning(delta: string, block: string, minted: string)
    | ToolCall(call: string, delta: string)
    | Consolidated(content: string, blob: Option<string>)

  function Next(t: Turn, step: Step): Turn {
    match step
    case Attach => t.(active := true)
    case Delta(delta, minted) => AfterDelta(t, delta, minted)
    case Reasoning(delta, block, minted) => AfterReasoningDelta(t, delta, block, minted)
    case ToolCall(call, delta) => AfterToolCallDelta(t, call, delta)
    case Consolidated(content, blob) => AfterConsolidated(t, content, blob)
  }

  function Run(t: Turn, steps: seq<Step>): Turn
    decreases |steps|
  {
    if steps == [] then t else Run(Next(t, steps[0]), steps[1..])
  }

  ghost predicate Inv(t: Turn) {
    && t.order == FirstSight(t.sent, false)
    && (forall i :: 0 <= i < |t.sent| ==> Emitted(t.sent[i], t.message, t.reasoning))
    && (t.message == Unnamed || t.message.MessageId?)
    && (t.reasoning == Unnamed || t.reasoning.ReasoningId?)
    && (t.reasoning in t.order ==> Resolve(t.consolidated, t.deltas) != "")
  }

  lemma InvSend(t: Turn, e: GatewayEvent)
    requires Inv(t) && t.active && Emitted(e, t.message, t.reasoning)
    requires e.ReasoningDelta? ==> Resolve(t.consolidated, t.deltas) != ""
    ensures Inv(Sent(Announced(t, e.id), e))
  {
    SendingKeepsOrder(t.sent, e, t.message, t.reasoning);
  }

  /** An id assigned for the first time renames nothing that was sent. */
  lemma InvName(t: Turn, message: ItemId, reasoning: ItemId)
    requires Inv(t)
    requires message == t.message || (t.message == Unnamed && message.MessageId?)
    requires reasoning == t.reasoning || (t.reasoning == Unnamed && reasoning.ReasoningId?)
    ensures Inv(t.(message := message, reasoning := reasoning))
  {
    AnnouncedItemsAreTheTurns(t.sent, t.message, t.reasoning);
  }

  lemma InvStep(t: Turn, step: Step)
    requires Inv(t)
    ensures Inv(Next(t, step))
  {
    match step
    case Attach =>
    case Delta(delta, minted) =>
      if t.active {
        var id := if t.message == Unnamed then MessageId(minted) else t.message;
        InvName(t, id, t.reasoning);
        InvSend(t.(message := id), MessageDelta(id, delta));
      }
    case Reasoning(delta, block, minted) =>
      if delta != "" {
        var u := if t.consolidated == "" then t.(deltas := t.deltas + delta) else t;
        assert |t.deltas + delta| > 0;
        assert Inv(u);
        if t.active {
          var id := if t.reasoning == Unnamed then ReasoningId(if block != "" then block else minted) else t.reasoning;
          InvName(u, u.message, id);
          InvSend(u.(reasoning := id), ReasoningDelta(id, delta));
        }
      }
    case ToolCall(call, delta) =>
      if delta != "" && t.active {
        var id := ToolId(Function, call);
        InvSend(t, ToolCallDelta(id, Some(Item(id, FunctionCall, [], "")), delta));
      }
    case Consolidated(_, _) =>
  }

  lemma {:induction false} InvRun(t: Turn, steps: seq<Step>)
    requires Inv(t)
    ensures Inv(Run(t, steps))
    decreases |steps|
  {
    if steps != [] {
      InvStep(t, steps[0]);
      InvRun(Next(t, steps[0]), steps[1..]);
    }
  }

  // ---- Every fragment is sent --------------------------------------------------

  /** A piece of text with what it belongs to; only calls have a name of their own. */
  datatype Fragment = Fragment(kind: ItemType, call: string, text: string)

  /** What a step hands over: any piece of the message, and pieces of reasoning and of calls that are not empty. */
  function Given(step: Step): seq<Fragment> {
    match step
    case Delta(delta, _) => [Fragment(Message, "", delta)]
    case Reasoning(delta, _, _) => if delta == "" then [] else [Fragment(ItemType.Reasoning, "", delta)]
    case ToolCall(call, delta) => if delta == "" then [] else [Fragment(FunctionCall, call, delta)]
    case _ => []
  }

  function GivenBy(steps: seq<Step>): seq<Fragment> {
    if steps == [] then [] else Given(steps[0]) + GivenBy(steps[1..])
  }

  function Carried(e: GatewayEvent): seq<Fragment> {
    match e
    case MessageDelta(_, delta) => [Fragment(Message, "", delta)]
    case ReasoningDelta(_, delta) => [Fragment(ItemType.Reasoning, "", delta)]
    case ToolCallDelta(ToolId(_, call), _, delta) => [Fragment(FunctionCall, call, delta)]
    case _ => []
  }

  function CarriedBy(sent: seq<GatewayEvent>): seq<Fragment> {
    if sent == [] then [] else CarriedBy(sent[..|sent| - 1]) + Carried(sent[|sent| - 1])
  }

  lemma StepIsSent(t: Turn, step: Step)
    requires t.active
    ensures Next(t, step).active && CarriedBy(Next(t, step).sent) == CarriedBy(t.sent) + Given(step)
  {
    hide CarriedBy, Seen;
    NothingCarried(t.sent);
    if !step.Attach? && !step.Consolidated? && Given(step) != [] {
      var sent := Next(t, step).sent;
      assert sent == t.sent + [sent[|t.sent|]];
      OneMoreCarried(t.sent, sent[|t.sent|]);
    }
  }

  lemma NothingCarried(sent: seq<GatewayEvent>)
    ensures CarriedBy(sent) + [] == CarriedBy(sent)
  {
  }

  lemma OneMoreCarried(sent: seq<GatewayEvent>, e: GatewayEvent)
    ensures CarriedBy(sent + [e]) == CarriedBy(sent) + Carried(e)
  {
    assert (sent + [e])[..|sent|] == sent;
  }

  /** Once a stream is attached, the events sent carry every piece handed over, in order. */
  lemma {:induction false} EveryFragmentIsSent(t: Turn, steps: seq<Step>)
    requires t.active
    ensures CarriedBy(Run(t, steps).sent) == CarriedBy(t.sent) + GivenBy(steps)
    decreases |steps|
  {
    hide Next, Given, Carried;
    if steps == [] {
      assert CarriedBy(t.sent) + [] == CarriedBy(t.sent);
    } else {
      StepIsSent(t, steps[0]);
      EveryFragmentIsSent(Next(t, steps[0]), steps[1..]);
      assert (CarriedBy(t.sent) + Given(steps[0])) + GivenBy(steps[1..])
          == CarriedBy(t.sent) + (Given(steps[0]) + GivenBy(steps[1..]));
    }
  }

  predicate Consolidates(step: Step) {
    step.Consolidated? && step.content != ""
  }

  function ReasoningIn(steps: seq<Step>): string {
    if steps == [] then ""
    else (if steps[0].Reasoning? then steps[0].delta else "") + ReasoningIn(steps[1..])
  }

  /** With no consolidated text the turn's reasoning is its pieces; a consolidated text stays. */
  lemma {:induction false} ReasoningIsGathered(t: Turn, steps: seq<Step>)
    requires forall i :: 0 <= i < |steps| ==> !Consolidates(steps[i])
    ensures var u := Run(t, steps);
            && u.consolidated == t.consolidated
            && u.deltas == if t.consolidated == "" then t.deltas + ReasoningIn(steps) else t.deltas
    decreases |steps|
  {
    if steps == [] {
      assert t.deltas + "" == t.deltas;
    } else {
      var v, piece := Next(t, steps[0]), if steps[0].Reasoning? then steps[0].delta else "";
      assert !Consolidates(steps[0]);
      assert t.deltas + "" == t.deltas;
      assert v.consolidated == t.consolidated && (t.consolidated == "" ==> v.deltas == t.deltas + piece);
      ReasoningIsGathered(v, steps[1..]);
      assert (t.deltas + piece) + ReasoningIn(steps[1..]) == t.deltas + (piece + ReasoningIn(steps[1..]));
    }
  }

  /** The last consolidated text is the turn's reasoning, whatever pieces came before or come later. */
  lemma LastConsolidatedCounts(t: Turn, content: string, blob: Option<string>, later: seq<Step>)
    requires content != "" && forall i :: 0 <= i < |later| ==> !Consolidates(later[i])
    ensures Resolve(Run(Next(t, Consolidated(content, blob)), later).consolidated,
                    Run(Next(t, Consolidated(content, blob)), later).deltas) == content
  {
    ReasoningIsGathered(Next(t, Consolidated(content, blob)), later);
  }

  // ---- The turn's response -----------------------------------------------------

  /** The reasoning item, if the turn produced any. */
  function ReasoningItem(t: Turn, key: string): Option<Item> {
    var thought := Resolve(t.consolidated, t.deltas);
    if thought == "" && t.encrypted == "" then None
    else Some(Item(if t.reasoning == Unnamed then ReasoningId(key) else t.reasoning, ItemType.Reasoning,
                   if thought != "" then [thought] else [], ""))
  }

  /** A message already announced exists in the response even without text. */
  function MessageItem(t: Turn, text: string, calls: seq<Item>, key: string): Option<Item> {
    if text == "" && calls != [] && (t.message == Unnamed || t.message !in t.order) then None
    else Some(Item(if t.message == Unnamed then MessageId(key) else t.message, Message, [text], ""))
  }

  function TurnItems(t: Turn, text: string, calls: seq<Item>, messageKey: string, reasoningKey: string): seq<Item> {
    Natural(ReasoningItem(t, reasoningKey), MessageItem(t, text, calls, messageKey), calls)
  }

  function ResponseFromTurn(t: Turn, text: string, calls: seq<Item>, messageKey: string, reasoningKey: string): Response
  {
    Response(Arranged(TurnItems(t, text, calls, messageKey, reasoningKey), t.order), text)
  }

  /** Whatever was streamed of the reasoning and the message is in the response, with the turn's text. */
  lemma StreamedItemsAreInTheResponse(t: Turn, text: string, calls: seq<Item>, messageKey: string, reasoningKey: string,
                                      id: ItemId)
    requires Inv(t) && id in t.order && !id.ToolId?
    ensures var item :=
              if id.MessageId? then MessageItem(t, text, calls, messageKey) else ReasoningItem(t, reasoningKey);
            && item.Some? && item.value.id == id
            && item.value in ResponseFromTurn(t, text, calls, messageKey, reasoningKey).output
            && Concat(item.value.parts) == (if id.MessageId? then text else Resolve(t.consolidated, t.deltas))
  {
    AnnouncedItemsAreTheTurns(t.sent, t.message, t.reasoning);
    var item := if id.MessageId? then MessageItem(t, text, calls, messageKey) else ReasoningItem(t, reasoningKey);
    var items := TurnItems(t, text, calls, messageKey, reasoningKey);
    assert item.value in items;
    ArrangedIsPermutation(items, t.order);
    assert item.value in multiset(items);
    assert item.value in multiset(Arranged(items, t.order));
    assert item.value.parts[1..] == [];
  }

  lemma ConcatOne(text: string)
    ensures Concat([text]) == text && Concat([]) == ""
  {
    assert [text][1..] == [];
  }

  /** The turn's message: one with its text if there is any, or no call, or the message was streamed, and no other. */
  predicate Says(t: Turn, text: string, calls: seq<Item>, key: string, said: seq<Item>) {
    && |said| == (if text != "" || calls == [] || (t.message != Unnamed && t.message in t.order) then 1 else 0)
    && forall i :: 0 <= i < |said| ==>
      && said[i].kind == Message && Concat(said[i].parts) == text
      && said[i].id == if t.message == Unnamed then MessageId(key) else t.message
  }

  /** The turn's reasoning: its consolidated text, or else its fragments, if there is any or a blob of it. */
  predicate Thinks(t: Turn, key: string, thought: seq<Item>) {
    && |thought| == (if t.consolidated != "" || t.deltas != "" || t.encrypted != "" then 1 else 0)
    && forall i :: 0 <= i < |thought| ==>
      && thought[i].kind == ItemType.Reasoning
      && Concat(thought[i].parts) == (if t.consolidated != "" then t.consolidated else t.deltas)
      && thought[i].id == if t.reasoning == Unnamed then ReasoningId(key) else t.reasoning
  }

  lemma TheMessage(t: Turn, text: string, calls: seq<Item>, key: string) returns (said: seq<Item>)
    ensures said == if MessageItem(t, text, calls, key).Some? then [MessageItem(t, text, calls, key).value] else []
    ensures Says(t, text, calls, key, said)
  {
    var m := MessageItem(t, text, calls, key);
    said := if m.Some? then [m.value] else [];
    ConcatOne(text);
  }

  lemma TheReasoning(t: Turn, key: string) returns (thought: seq<Item>)
    ensures thought == if ReasoningItem(t, key).Some? then [ReasoningItem(t, key).value] else []
    ensures Thinks(t, key, thought)
  {
    var r := ReasoningItem(t, key);
    thought := if r.Some? then [r.value] else [];
    ConcatOne(if t.consolidated != "" then t.consolidated else t.deltas);
  }

  /** The response holds the turn's reasoning, its message and each captured call once, and nothing else. */
  lemma TheResponseHoldsTheTurn(t: Turn, text: string, calls: seq<Item>, messageKey: string, reasoningKey: string)
    returns (said: seq<Item>, thought: seq<Item>)
    ensures multiset(ResponseFromTurn(t, text, calls, messageKey, reasoningKey).output)
         == multiset(thought) + multiset(said) + multiset(calls)
    ensures Says(t, text, calls, messageKey, said) && Thinks(t, reasoningKey, thought)
  {
    hide Concat, Arranged, Says, Thinks, MessageItem, ReasoningItem;
    said := TheMessage(t, text, calls, messageKey);
    thought := TheReasoning(t, reasoningKey);
    ArrangedIsPermutation(TurnItems(t, text, calls, messageKey, reasoningKey), t.order);
    assert TurnItems(t, text, calls, messageKey, reasoningKey) == thought + said + calls;
  }

  /** The runner's fields. */
  class TurnRunner {
    var active: bool
    var messageItemId: ItemId
    var reasoningItemId: ItemId
    var itemOrder: seq<ItemId>
    var deltas: string
    var consolidated: string
    var encrypted: string
    ghost var sent: seq<GatewayEvent>

    ghost function State(): Turn
      reads this
    {
      Turn(active, messageItemId, reasoningItemId, itemOrder, deltas, consolidated, encrypted, sent)
    }

    constructor ()
      ensures State() == NewTurn(false)
    {
      active, messageItemId, reasoningItemId, itemOrder := false, Unnamed, Unnamed, [];
      deltas, consolidated, encrypted, sent := "", "", "", [];
    }

    method AttachResponseStream()
      modifies this
      ensures State() == Next(old(State()), Attach)
    {
      active := true;
    }

    /** A turn boundary: the next turn inherits neither ids nor order nor text. */
    method Reset()
      modifies this
      ensures State() == NewTurn(old(active))
    {
      messageItemId, reasoningItemId, itemOrder := Unnamed, Unnamed, [];
      deltas, consolidated, encrypted, sent := "", "", "", [];
    }

    method AnnounceItem(id: ItemId)
      modifies `itemOrder
      ensures State() == Announced(old(State()), id)
    {
      if id == Unnamed || !active {
        return;
      }
      for i := 0 to |itemOrder|
        invariant itemOrder == old(itemOrder) && forall j :: 0 <= j < i ==> itemOrder[j] != id
      {
        if itemOrder[i] == id {
          return;
        }
      }
      itemOrder := itemOrder + [id];
    }

    method EmitDelta(delta: string, minted: string)
      modifies this
      ensures State() == AfterDelta(old(State()), delta, minted)
    {
      if active {
        if messageItemId == Unnamed {
          messageItemId := MessageId(minted);
        }
        AnnounceItem(messageItemId);
        sent := sent + [MessageDelta(messageItemId, delta)];
      }
    }

    method EmitReasoningDelta(delta: string, block: string, minted: string)
      modifies this
      ensures State() == AfterReasoningDelta(old(State()), delta, block, minted)
    {
      if delta == "" {
        return;
      }
      if consolidated == "" {
        deltas := deltas + delta;
      }
      if active {
        if reasoningItemId == Unnamed {
          reasoningItemId := ReasoningId(if block != "" then block else minted);
        }
        AnnounceItem(reasoningItemId);
        sent := sent + [ReasoningDelta(reasoningItemId, delta)];
      }
    }

    method EmitToolCallDelta(call: string, delta: string)
      modifies this
      ensures State() == AfterToolCallDelta(old(State()), call, delta)
    {
      if delta == "" {
        return;
      }
      if active {
        var id := ToolId(Function, call);
        AnnounceItem(id);
        sent := sent + [ToolCallDelta(id, Some(Item(id, FunctionCall, [], "")), delta)];
      }
    }

    method AddConsolidated(content: string, blob: Option<string>)
      modifies this
      ensures State() == AfterConsolidated(old(State()), content, blob)
    {
      if content != "" {
        consolidated := content;
        deltas := "";
      }
      if blob.Some? {
        encrypted := blob.value;
      }
    }

    method BuildResponse(text: string, calls: seq<Item>, messageKey: string, reasoningKey: string)
      returns (response: Response)
      ensures response == ResponseFromTurn(State(), text, calls, messageKey, reasoningKey)
    {
      hide Arranged;
      var items: seq<Item> := [];
      var thought := if consolidated != "" then consolidated else deltas;
      if thought != "" || encrypted != "" {
        var id := if reasoningItemId == Unnamed then ReasoningId(reasoningKey) else reasoningItemId;
        items := items + [Item(id, ItemType.Reasoning, if thought != "" then [thought] else [], "")];
      }
      ghost var reasoned := ReasoningItem(State(), reasoningKey);
      assert items == if reasoned.Some? then [reasoned.value] else [];
      hide ReasoningItem;
      if text != "" || |calls| == 0 || (messageItemId != Unnamed && messageItemId in itemOrder) {
        var id := if messageItemId == Unnamed then MessageId(messageKey) else messageItemId;
        items := items + [Item(id, Message, [text], "")];
      }
      assert MessageItem(State(), text, calls, messageKey).Some? ==>
        items[|items| - 1] == MessageItem(State(), text, calls, messageKey).value;
      hide MessageItem;
      items := items + calls;
      assert items == TurnItems(State(), text, calls, messageKey, reasoningKey);
      var output := OrderOutputItems(items, itemOrder);
      response := Response(output, text);
    }
  }

  /** The only message and the only reasoning announced are the turn's own. */
  lemma {:induction false} AnnouncedItemsAreTheTurns(sent: seq<GatewayEvent>, message: ItemId, reasoning: ItemId)
    requires forall i :: 0 <= i < |sent| ==> Emitted(sent[i], message, reasoning)
    ensures forall id :: id in FirstSight(sent, false) ==>
      && (id.MessageId? ==> id == message) && (id.ReasoningId? ==> id == reasoning)
      && (id.ToolId? ==> id.kind == Function)
      && id != Unnamed
  {
    if sent != [] { AnnouncedItemsAreTheTurns(sent[..|sent| - 1], message, reasoning); }
  }
}
