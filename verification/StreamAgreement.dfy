/**
 The two sides of a Responses stream put together: the runner announces and orders
 a turn's items, the HTTP layer numbers them as they appear, and neither tells the
 other. Every index on the wire is nevertheless the item's position in the
 response, with or without reasoning.
 */
module StreamAgreement {
  import opened Common
  import opened ResponseItems
  import opened ResponseClient
  import opened ResponseStream
  import Runner = OutputOrder
  import Reconcile = StreamReconcile

  // ---- The ids of a response by type -----------------------------------------

  function OnlyMessages(ids: seq<ItemId>): seq<ItemId> {
    if ids == [] then []
    else
      var last := ids[|ids| - 1];
      OnlyMessages(ids[..|ids| - 1]) + (if last.MessageId? then [last] else [])
  }

  function CallsOutside(ids: seq<ItemId>, streamed: set<ItemId>): seq<ItemId> {
    if ids == [] then []
    else
      var last := ids[|ids| - 1];
      CallsOutside(ids[..|ids| - 1], streamed)
        + (if last.ToolId? && !(last.kind == Function && last in streamed) then [last] else [])
  }

  lemma {:induction false} OnlyMessagesAppend(a: seq<ItemId>, b: seq<ItemId>)
    ensures OnlyMessages(a + b) == OnlyMessages(a) + OnlyMessages(b)
  {
    if b == [] {
      assert a + b == a;
    } else {
      var n := |b| - 1;
      OnlyMessagesAppend(a, b[..n]);
      assert (a + b)[..|a + b| - 1] == a + b[..n];
    }
  }

  lemma {:induction false} CallsOutsideAppend(a: seq<ItemId>, b: seq<ItemId>, streamed: set<ItemId>)
    ensures CallsOutside(a + b, streamed) == CallsOutside(a, streamed) + CallsOutside(b, streamed)
  {
    if b == [] {
      assert a + b == a;
    } else {
      var n := |b| - 1;
      CallsOutsideAppend(a, b[..n], streamed);
      assert (a + b)[..|a + b| - 1] == a + b[..n];
    }
  }

  lemma {:induction false} NoMessages(ids: seq<ItemId>)
    requires forall id :: id in ids ==> !id.MessageId?
    ensures OnlyMessages(ids) == []
  {
    if ids != [] { NoMessages(ids[..|ids| - 1]); }
  }

  lemma {:induction false} NoCallsOutside(ids: seq<ItemId>, streamed: set<ItemId>)
    requires forall id :: id in ids && id.ToolId? ==> id.kind == Function && id in streamed
    ensures CallsOutside(ids, streamed) == []
  {
    if ids != [] { NoCallsOutside(ids[..|ids| - 1], streamed); }
  }

  lemma {:induction false} AllCallsOutside(ids: seq<ItemId>, streamed: set<ItemId>)
    requires forall id :: id in ids ==> id.ToolId? && id !in streamed
    ensures CallsOutside(ids, streamed) == ids
  {
    if ids != [] {
      var n := |ids| - 1;
      assert ids[n] in ids;
      LastOutside(ids, streamed);
      hide CallsOutside;
      AllCallsOutside(ids[..n], streamed);
      assert ids == ids[..n] + [ids[n]];
    }
  }

  lemma LastId(items: seq<Item>)
    requires items != []
    ensures var n := |items| - 1; Ids(items)[..n] == Ids(items[..n]) && Ids(items)[n] == items[n].id
  {
  }

  lemma {:induction false} MessagesByName(items: seq<Item>)
    requires NamedItems(items)
    ensures MessageIds(items) == OnlyMessages(Ids(items))
  {
    if items != [] {
      var n := |items| - 1;
      LastId(items);
      MessagesByName(items[..n]);
      assert Names(items[n].id, items[n].kind);
    }
  }

  lemma {:induction false} CallsByName(items: seq<Item>, streamed: set<ItemId>)
    requires NamedItems(items)
    ensures UnstreamedCallIds(items, streamed) == CallsOutside(Ids(items), streamed)
  {
    if items != [] {
      var n := |items| - 1;
      assert Names(items[n].id, items[n].kind);
      LastCallByName(items, streamed);
      hide Ids, CallsOutside, UnstreamedCallIds;
      CallsByName(items[..n], streamed);
    }
  }

  lemma LastCallByName(items: seq<Item>, streamed: set<ItemId>)
    requires items != []
    requires Names(items[|items| - 1].id, items[|items| - 1].kind)
    ensures var init, id := items[..|items| - 1], items[|items| - 1].id;
            var one := if id.ToolId? && !(id.kind == Function && id in streamed) then [id] else [];
            && UnstreamedCallIds(items, streamed) == UnstreamedCallIds(init, streamed) + one
            && CallsOutside(Ids(items), streamed) == CallsOutside(Ids(init), streamed) + one
  {
    var n := |items| - 1;
    LastId(items);
    assert IsToolCall(items[n]) <==> items[n].id.ToolId?;
    assert UnstreamedCallIds(items, streamed) == UnstreamedCallIds(items[..n], streamed)
      + (if items[n].id.ToolId? && !(items[n].id.kind == Function && items[n].id in streamed) then [items[n].id]
         else []);
    hide UnstreamedCallIds, Ids;
    LastOutside(Ids(items), streamed);
  }

  lemma LastOutside(ids: seq<ItemId>, streamed: set<ItemId>)
    requires ids != []
    ensures var last := ids[|ids| - 1];
            CallsOutside(ids, streamed) == CallsOutside(ids[..|ids| - 1], streamed)
              + (if last.ToolId? && !(last.kind == Function && last in streamed) then [last] else [])
  {
  }

  // ---- What the HTTP layer makes of a well-ordered response --------------------

  /** The ids of a turn's items before ordering. */
  function NaturalIds(reasoning: Option<ItemId>, message: Option<ItemId>, calls: seq<ItemId>): seq<ItemId> {
    (if reasoning.Some? then [reasoning.value] else []) + (if message.Some? then [message.value] else []) + calls
  }

  ghost predicate WellNamed(reasoning: Option<ItemId>, message: Option<ItemId>, calls: seq<ItemId>) {
    && (reasoning.Some? ==> reasoning.value.ReasoningId?)
    && (message.Some? ==> message.value.MessageId?)
    && forall id :: id in calls ==> id.ToolId?
  }

  /** What was streamed is the turn's own reasoning and message, and function calls. */
  ghost predicate StreamedOf(seen: seq<ItemId>, reasoning: Option<ItemId>, message: Option<ItemId>) {
    forall id :: id in seen ==>
      match id
      case ReasoningId(_) => reasoning == Some(id)
      case MessageId(_) => message == Some(id)
      case ToolId(kind, _) => kind == Function
      case Unnamed => false
  }

  /** The item, unless it was streamed. */
  function Unseen(id: Option<ItemId>, gone: set<ItemId>): seq<ItemId> {
    if id.Some? && id.value !in gone then [id.value] else []
  }

  lemma SplitRest(reasoning: Option<ItemId>, message: Option<ItemId>, calls: seq<ItemId>, gone: set<ItemId>)
    ensures Without(NaturalIds(reasoning, message, calls), gone)
         == Unseen(reasoning, gone) + Unseen(message, gone) + Without(calls, gone)
  {
    var r: seq<ItemId> := if reasoning.Some? then [reasoning.value] else [];
    var m: seq<ItemId> := if message.Some? then [message.value] else [];
    WithoutAppend(r + m, calls, gone);
    WithoutAppend(r, m, gone);
    if reasoning.Some? { assert r[1..] == []; }
    if message.Some? { assert m[1..] == []; }
  }

  lemma {:induction false} FirstReasoningOf(items: seq<Item>, reasoning: Option<ItemId>)
    requires NamedItems(items)
    requires forall id :: id in Ids(items) && id.ReasoningId? ==> reasoning == Some(id)
    requires reasoning.Some? ==> reasoning.value in Ids(items) && reasoning.value.ReasoningId?
    ensures FirstReasoningIds(items) == if reasoning.Some? then [reasoning.value] else []
  {
    if reasoning.Some? {
      var i :| 0 <= i < |items| && Ids(items)[i] == reasoning.value;
      assert Names(items[i].id, items[i].kind) && items[i] in items;
    }
    var found := FirstReasoning(items);
    if found.Some? {
      var i :| 0 <= i < |items| && items[i] == found.value;
      assert Ids(items)[i] == found.value.id && Names(items[i].id, items[i].kind);
    }
  }

  /** Streamed items first, the rest in natural order: the HTTP layer numbers it exactly so. */
  lemma EndOrderOfOrdered(seen: seq<ItemId>, reasoning: Option<ItemId>, message: Option<ItemId>, calls: seq<ItemId>,
                          items: seq<Item>)
    requires WellNamed(reasoning, message, calls) && StreamedOf(seen, reasoning, message)
    requires NamedItems(items)
    requires Ids(items) == seen + Without(NaturalIds(reasoning, message, calls), Elements(seen))
    ensures EndOrder(seen, items) == Ids(items)
  {
    var gone := Elements(seen);
    SplitRest(reasoning, message, calls, gone);
    WithoutMembers(calls, gone);
    var r, m, rest := Unseen(reasoning, gone), Unseen(message, gone), Without(calls, gone);
    MessagesByName(items);
    CallsByName(items, gone);
    ReasoningPart(seen, reasoning, message, items, r, m, rest);
    MessagePart(seen, reasoning, message, r, m, rest);
    CallPart(seen, reasoning, message, r, m, rest);
    Regrouped(seen, r, m, rest);
    Assembled(seen, items, r, m, rest);
  }

  lemma Regrouped(seen: seq<ItemId>, r: seq<ItemId>, m: seq<ItemId>, rest: seq<ItemId>)
    ensures seen + (r + m + rest) == seen + r + m + rest
  {
  }

  lemma Assembled(seen: seq<ItemId>, items: seq<Item>, r: seq<ItemId>, m: seq<ItemId>, rest: seq<ItemId>)
    requires r == if exists id :: id in seen && id.ReasoningId? then [] else FirstReasoningIds(items)
    requires m == if exists id :: id in seen && id.MessageId? then [] else MessageIds(items)
    requires rest == UnstreamedCallIds(items, Elements(seen))
    ensures EndOrder(seen, items) == seen + r + m + rest
  {
  }

  lemma ReasoningPart(seen: seq<ItemId>, reasoning: Option<ItemId>, message: Option<ItemId>, items: seq<Item>,
                      r: seq<ItemId>, m: seq<ItemId>, rest: seq<ItemId>)
    requires StreamedOf(seen, reasoning, message) && (reasoning.Some? ==> reasoning.value.ReasoningId?)
    requires message.Some? ==> message.value.MessageId?
    requires NamedItems(items)
    requires r == Unseen(reasoning, Elements(seen)) && m == Unseen(message, Elements(seen))
    requires Ids(items) == seen + (r + m + rest) && forall id :: id in rest ==> id.ToolId?
    ensures r == if exists id :: id in seen && id.ReasoningId? then [] else FirstReasoningIds(items)
  {
    var ids := Ids(items);
    assert forall id :: id in ids <==> id in seen || id in r || id in m || id in rest;
    if !exists id :: id in seen && id.ReasoningId? {
      FirstReasoningOf(items, reasoning);
    }
  }

  lemma MessagePart(seen: seq<ItemId>, reasoning: Option<ItemId>, message: Option<ItemId>,
                    r: seq<ItemId>, m: seq<ItemId>, rest: seq<ItemId>)
    requires StreamedOf(seen, reasoning, message) && (reasoning.Some? ==> reasoning.value.ReasoningId?)
    requires message.Some? ==> message.value.MessageId?
    requires r == Unseen(reasoning, Elements(seen)) && m == Unseen(message, Elements(seen))
    requires forall id :: id in rest ==> id.ToolId?
    ensures m == if exists id :: id in seen && id.MessageId? then [] else OnlyMessages(seen + (r + m + rest))
  {
    if !exists id :: id in seen && id.MessageId? {
      OnlyMessagesAppend(seen, r + m + rest);
      OnlyMessagesAppend(r + m, rest);
      OnlyMessagesAppend(r, m);
      NoMessages(seen);
      NoMessages(r);
      NoMessages(rest);
      assert m != [] ==> m[..0] == [];
      assert OnlyMessages(m) == m;
      assert [] + (([] + m) + []) == m;
    }
  }

  lemma CallPart(seen: seq<ItemId>, reasoning: Option<ItemId>, message: Option<ItemId>,
                 r: seq<ItemId>, m: seq<ItemId>, rest: seq<ItemId>)
    requires StreamedOf(seen, reasoning, message) && (reasoning.Some? ==> reasoning.value.ReasoningId?)
    requires message.Some? ==> message.value.MessageId?
    requires r == Unseen(reasoning, Elements(seen)) && m == Unseen(message, Elements(seen))
    requires forall id :: id in rest ==> id.ToolId? && id !in seen
    ensures CallsOutside(seen + (r + m + rest), Elements(seen)) == rest
  {
    var gone := Elements(seen);
    CallsOutsideAppend(seen, r + m + rest, gone);
    CallsOutsideAppend(r + m, rest, gone);
    NoCallsOutside(seen, gone);
    NoCallsOutside(r + m, gone);
    AllCallsOutside(rest, gone);
  }

  // ---- Suppressed reasoning ----------------------------------------------------

  lemma {:induction false} WithoutSame(ids: seq<ItemId>, a: set<ItemId>, b: set<ItemId>)
    requires forall id :: id in ids ==> (id in a <==> id in b)
    ensures Without(ids, a) == Without(ids, b)
  {
    if ids != [] { WithoutSame(ids[1..], a, b); }
  }

  /** Filtering the reasoning items filters the turn's reasoning id. */
  lemma {:induction false} FilteredIds(items: seq<Item>, hidden: set<ItemId>)
    requires NamedItems(items)
    requires forall id :: id in Ids(items) ==> (id in hidden <==> id.ReasoningId?)
    ensures Ids(NonReasoning(items)) == Without(Ids(items), hidden)
  {
    if items != [] {
      var n := |items| - 1;
      var init, last := items[..n], items[n];
      FilteredInit(items, hidden);
      Runner.IdsAppend(init, [last]);
      SingleId(last);
      assert items == init + [last];
      assert NonReasoning(items) == NonReasoning(init) + (if last.kind == Reasoning then [] else [last]);
      hide NonReasoning, Ids, Without;
      FilteredIds(init, hidden);
      FilteredMore(init, last, hidden);
    }
  }

  lemma FilteredInit(items: seq<Item>, hidden: set<ItemId>)
    requires items != [] && NamedItems(items)
    requires forall id :: id in Ids(items) ==> (id in hidden <==> id.ReasoningId?)
    ensures var init, last := items[..|items| - 1], items[|items| - 1];
            && NamedItems(init) && (forall id :: id in Ids(init) ==> (id in hidden <==> id.ReasoningId?))
            && (last.id in hidden <==> last.kind == Reasoning)
  {
    var n := |items| - 1;
    LastId(items);
    assert Names(items[n].id, items[n].kind) && Ids(items)[n] in Ids(items);
    assert forall id :: id in Ids(items)[..n] ==> id in Ids(items);
  }

  lemma FilteredMore(items: seq<Item>, last: Item, hidden: set<ItemId>)
    requires Ids(NonReasoning(items)) == Without(Ids(items), hidden)
    requires last.id in hidden <==> last.kind == Reasoning
    ensures Ids(NonReasoning(items) + (if last.kind == Reasoning then [] else [last]))
      == Without(Ids(items) + [last.id], hidden)
  {
    hide NonReasoning, Ids, Without;
    WithoutAppend(Ids(items), [last.id], hidden);
    SingleWithout(last.id, hidden);
    if last.kind == Reasoning {
      assert NonReasoning(items) + [] == NonReasoning(items);
      assert Without(Ids(items), hidden) + [] == Without(Ids(items), hidden);
    } else {
      Runner.IdsAppend(NonReasoning(items), [last]);
      SingleId(last);
    }
  }

  lemma SingleId(item: Item)
    ensures Ids([item]) == [item.id]
  {
  }

  lemma SingleWithout(id: ItemId, hidden: set<ItemId>)
    ensures Without([id], hidden) == if id in hidden then [] else [id]
  {
    assert [id][1..] == [];
  }

  /** Suppressing reasoning takes the turn's reasoning out of the order of first sight, and nothing else. */
  lemma {:induction false} SuppressedSight(sent: seq<GatewayEvent>, message: ItemId, reasoning: ItemId,
                                           hidden: set<ItemId>)
    requires forall i :: 0 <= i < |sent| ==> Runner.Emitted(sent[i], message, reasoning)
    requires hidden <= {reasoning} && (reasoning in FirstSight(sent, false) ==> reasoning in hidden)
    requires reasoning == Unnamed || reasoning.ReasoningId?
    ensures FirstSight(sent, true) == Without(FirstSight(sent, false), hidden)
  {
    if sent != [] {
      var n := |sent| - 1;
      SuppressedSight(sent[..n], message, reasoning, hidden);
      Runner.AnnouncedItemsAreTheTurns(sent[..n], message, reasoning);
      var before, e := FirstSight(sent[..n], false), sent[n];
      assert Runner.Emitted(e, message, reasoning);
      WithoutMembers(before, hidden);
      if e.id !in before {
        WithoutAppend(before, [e.id], hidden);
        assert [e.id][1..] == [];
        if e.id in hidden { assert Without(before, hidden) + [] == Without(before, hidden); }
      }
    }
  }

  // ---- One turn, end to end ------------------------------------------------------

  ghost predicate CapturedCalls(calls: seq<Item>) {
    (forall item :: item in calls ==> Runner.IsCallItem(item)) && Distinct(Ids(calls))
  }

  function IdOf(item: Option<Item>): Option<ItemId> {
    if item.Some? then Some(item.value.id) else None
  }

  lemma NaturalItemIds(reasoning: Option<Item>, message: Option<Item>, calls: seq<Item>)
    ensures Ids(Runner.Natural(reasoning, message, calls)) == NaturalIds(IdOf(reasoning), IdOf(message), Ids(calls))
  {
    var r: seq<Item> := if reasoning.Some? then [reasoning.value] else [];
    var m: seq<Item> := if message.Some? then [message.value] else [];
    Runner.IdsAppend(r + m, calls);
    Runner.IdsAppend(r, m);
    assert Ids(r) == if reasoning.Some? then [reasoning.value.id] else [];
    assert Ids(m) == if message.Some? then [message.value.id] else [];
  }

  lemma NaturalIdsDistinct(reasoning: Option<ItemId>, message: Option<ItemId>, calls: seq<ItemId>)
    requires WellNamed(reasoning, message, calls) && Distinct(calls)
    ensures Distinct(NaturalIds(reasoning, message, calls))
  {
    var withMessage := (if message.Some? then [message.value] else []) + calls;
    assert Distinct(withMessage) by {
      if message.Some? { assert withMessage[1..] == calls; } else { assert withMessage == calls; }
    }
    var all := NaturalIds(reasoning, message, calls);
    if reasoning.Some? { assert all[1..] == withMessage; } else { assert all == withMessage; }
  }

  lemma {:induction false} DistinctConcat(a: seq<ItemId>, b: seq<ItemId>)
    requires Distinct(a) && Distinct(b) && forall id :: id in a ==> id !in b
    ensures Distinct(a + b)
  {
    if a == [] {
      assert a + b == b;
    } else {
      DistinctConcat(a[1..], b);
      assert (a + b)[1..] == a[1..] + b;
    }
  }

  lemma CallIds(calls: seq<Item>)
    requires CapturedCalls(calls)
    ensures forall id :: id in Ids(calls) ==> id.ToolId?
  {
    forall id | id in Ids(calls) ensures id.ToolId? {
      var i :| 0 <= i < |calls| && Ids(calls)[i] == id;
      assert Runner.IsCallItem(calls[i]);
    }
  }

  lemma DistinctIdsAddress(items: seq<Item>)
    requires Distinct(Ids(items))
    ensures DistinctItems(items)
  {
    forall i, j | 0 <= i < j < |items| ensures items[i].id != items[j].id {
      DistinctIndices(Ids(items), i, j);
    }
  }

  lemma TurnIdsAreDistinct(t: Runner.Turn, text: string, calls: seq<Item>, messageKey: string, reasoningKey: string)
    requires Runner.Inv(t) && CapturedCalls(calls)
    ensures Distinct(Ids(Runner.TurnItems(t, text, calls, messageKey, reasoningKey)))
    ensures WellNamed(IdOf(Runner.ReasoningItem(t, reasoningKey)), IdOf(Runner.MessageItem(t, text, calls, messageKey)),
                      Ids(calls))
  {
    var r, m := Runner.ReasoningItem(t, reasoningKey), Runner.MessageItem(t, text, calls, messageKey);
    CallIds(calls);
    NaturalItemIds(r, m, calls);
    NaturalIdsDistinct(IdOf(r), IdOf(m), Ids(calls));
  }

  lemma TurnItemsAreNamed(t: Runner.Turn, text: string, calls: seq<Item>, messageKey: string, reasoningKey: string,
                          item: Item)
    requires Runner.Inv(t) && CapturedCalls(calls)
    requires item in Runner.TurnItems(t, text, calls, messageKey, reasoningKey)
    ensures Names(item.id, item.kind)
  {
    if item in calls { assert Runner.IsCallItem(item); }
  }

  /** A turn's response always carries distinct ids that name their types. */
  lemma TurnIsAddressed(t: Runner.Turn, text: string, calls: seq<Item>, messageKey: string, reasoningKey: string)
    requires Runner.Inv(t) && CapturedCalls(calls)
    ensures Addressed(Runner.ResponseFromTurn(t, text, calls, messageKey, reasoningKey))
  {
    var items := Runner.TurnItems(t, text, calls, messageKey, reasoningKey);
    TurnIdsAreDistinct(t, text, calls, messageKey, reasoningKey);
    Runner.ArrangedDistinct(items, t.order);
    DistinctIdsAddress(Runner.Arranged(items, t.order));
    forall item | item in items ensures Names(item.id, item.kind) {
      TurnItemsAreNamed(t, text, calls, messageKey, reasoningKey, item);
    }
    ArrangingKeepsNames(items, t.order);
  }

  lemma ArrangingKeepsNames(items: seq<Item>, order: seq<ItemId>)
    requires forall item :: item in items ==> Names(item.id, item.kind)
    ensures NamedItems(Runner.Arranged(items, order))
  {
    Runner.ArrangedIsPermutation(items, order);
    var output := Runner.Arranged(items, order);
    forall i | 0 <= i < |output| ensures Names(output[i].id, output[i].kind) {
      assert output[i] in multiset(output);
      assert output[i] in multiset(items);
    }
  }

  /** Every item announced, unless it is a call the turn never made, is the turn's. */
  lemma AnnouncedAreNatural(t: Runner.Turn, text: string, calls: seq<Item>, messageKey: string, reasoningKey: string)
    requires Runner.Inv(t) && CapturedCalls(calls)
    requires forall id :: id in t.order && id.ToolId? ==> id in Ids(calls)
    ensures var r, m := IdOf(Runner.ReasoningItem(t, reasoningKey)),
      IdOf(Runner.MessageItem(t, text, calls, messageKey));
            StreamedOf(t.order, r, m) && forall id :: id in t.order ==> id in NaturalIds(r, m, Ids(calls))
  {
    var r, m := IdOf(Runner.ReasoningItem(t, reasoningKey)), IdOf(Runner.MessageItem(t, text, calls, messageKey));
    Runner.AnnouncedItemsAreTheTurns(t.sent, t.message, t.reasoning);
    forall id | id in t.order && !id.ToolId? ensures (if id.MessageId? then m else r) == Some(id) {
      Runner.StreamedItemsAreInTheResponse(t, text, calls, messageKey, reasoningKey, id);
    }
  }

  /**
   The theorem both sides rely on: for every turn, the order in which the HTTP layer
   numbers the items of a completed stream is the order of the response it completes
   with, reasoning shown or suppressed.
   */
  lemma EveryIndexIsItsPosition(t: Runner.Turn, text: string, calls: seq<Item>, messageKey: string,
                                reasoningKey: string, suppressReasoning: bool)
    requires Runner.Inv(t) && CapturedCalls(calls)
    requires forall id :: id in t.order && id.ToolId? ==> id in Ids(calls)
    ensures var shown := Rendered(Runner.ResponseFromTurn(t, text, calls, messageKey, reasoningKey), suppressReasoning);
            EndOrder(FirstSight(t.sent, suppressReasoning), shown.output) == Ids(shown.output)
  {
    var r, m := IdOf(Runner.ReasoningItem(t, reasoningKey)), IdOf(Runner.MessageItem(t, text, calls, messageKey));
    var natural := NaturalIds(r, m, Ids(calls));
    var resp := Runner.ResponseFromTurn(t, text, calls, messageKey, reasoningKey);
    TurnIsAddressed(t, text, calls, messageKey, reasoningKey);
    TurnIdsAreDistinct(t, text, calls, messageKey, reasoningKey);
    AnnouncedAreNatural(t, text, calls, messageKey, reasoningKey);
    NaturalItemIds(Runner.ReasoningItem(t, reasoningKey), Runner.MessageItem(t, text, calls, messageKey), calls);
    FirstSightDistinct(t.sent, false);
    Runner.AnnouncedItemsAreTheTurns(t.sent, t.message, t.reasoning);
    Runner.ArrangedIds(Runner.TurnItems(t, text, calls, messageKey, reasoningKey), t.order);
    CallIds(calls);
    if suppressReasoning {
      SuppressedOrder(t, r, m, Ids(calls), resp);
    } else {
      EndOrderOfOrdered(t.order, r, m, Ids(calls), resp.output);
    }
  }

  lemma SuppressedOrder(t: Runner.Turn, reasoning: Option<ItemId>, message: Option<ItemId>, calls: seq<ItemId>,
                        resp: Response)
    requires Runner.Inv(t) && Addressed(resp)
    requires WellNamed(reasoning, message, calls) && StreamedOf(t.order, reasoning, message)
    requires Ids(resp.output) == t.order + Without(NaturalIds(reasoning, message, calls), Elements(t.order))
    ensures var shown := NonReasoning(resp.output); EndOrder(FirstSight(t.sent, true), shown) == Ids(shown)
  {
    var hidden := if reasoning.Some? then {reasoning.value} else {};
    var natural, seen := NaturalIds(reasoning, message, calls), Without(t.order, hidden);
    WithoutMembers(t.order, hidden);
    WithoutMembers(natural, Elements(t.order));
    SightWithoutReasoning(t, reasoning, message, hidden);
    HiddenIsReasoning(t.order, reasoning, message, calls, resp.output, hidden);
    FilteredIds(resp.output, hidden);
    WithoutAppend(t.order, Without(natural, Elements(t.order)), hidden);
    RestWithoutReasoning(t.order, reasoning, message, calls, hidden);
    NonReasoningMembers(resp.output);
    var shown := NonReasoning(resp.output);
    forall i | 0 <= i < |shown| ensures Names(shown[i].id, shown[i].kind) {
      assert shown[i] in resp.output;
    }
    EndOrderOfOrdered(seen, None, message, calls, shown);
  }

  lemma SightWithoutReasoning(t: Runner.Turn, reasoning: Option<ItemId>, message: Option<ItemId>, hidden: set<ItemId>)
    requires Runner.Inv(t) && StreamedOf(t.order, reasoning, message)
    requires reasoning.Some? ==> reasoning.value.ReasoningId?
    requires hidden == if reasoning.Some? then {reasoning.value} else {}
    ensures FirstSight(t.sent, true) == Without(t.order, hidden)
  {
    Runner.AnnouncedItemsAreTheTurns(t.sent, t.message, t.reasoning);
    var own: set<ItemId> := if t.reasoning in t.order then {t.reasoning} else {};
    SuppressedSight(t.sent, t.message, t.reasoning, own);
    WithoutSame(t.order, own, hidden);
  }

  lemma HiddenIsReasoning(order: seq<ItemId>, reasoning: Option<ItemId>, message: Option<ItemId>, calls: seq<ItemId>,
                          items: seq<Item>, hidden: set<ItemId>)
    requires WellNamed(reasoning, message, calls) && StreamedOf(order, reasoning, message)
    requires Ids(items) == order + Without(NaturalIds(reasoning, message, calls), Elements(order))
    requires hidden == if reasoning.Some? then {reasoning.value} else {}
    ensures forall id :: id in Ids(items) ==> (id in hidden <==> id.ReasoningId?)
  {
    var natural := NaturalIds(reasoning, message, calls);
    WithoutMembers(natural, Elements(order));
    assert forall id :: id in Ids(items) ==> id in order || id in natural;
  }

  lemma RestWithoutReasoning(order: seq<ItemId>, reasoning: Option<ItemId>, message: Option<ItemId>, calls: seq<ItemId>,
                             hidden: set<ItemId>)
    requires WellNamed(reasoning, message, calls)
    requires hidden == if reasoning.Some? then {reasoning.value} else {}
    ensures Without(Without(NaturalIds(reasoning, message, calls), Elements(order)), hidden)
         == Without(NaturalIds(None, message, calls), Elements(Without(order, hidden)))
  {
    var gone := Elements(order);
    WithoutMembers(order, hidden);
    WithoutTwice(NaturalIds(reasoning, message, calls), gone, hidden);
    SplitRest(reasoning, message, calls, gone + hidden);
    SplitRest(None, message, calls, Elements(Without(order, hidden)));
    WithoutSame(calls, gone + hidden, Elements(Without(order, hidden)));
  }

  // ---- What a turn streams ------------------------------------------------------

  /** Only the turn's own message and reasoning have been announced. */
  predicate OwnIds(g: Progress, message: ItemId, reasoning: ItemId) {
    && (g.messageId.Some? ==> g.messageId.value == message)
    && (g.reasoningId.Some? ==> g.reasoningId.value == reasoning)
  }

  /** An event the runner sends keeps to the ids announced, and is taken exactly if the limit is kept. */
  lemma EmittedIsStable(g: Progress, e: GatewayEvent, message: ItemId, reasoning: ItemId, suppressReasoning: bool,
                        limit: nat)
    requires Runner.Emitted(e, message, reasoning) && OwnIds(g, message, reasoning)
    ensures Typed(e) && Stable(g, e, suppressReasoning, limit)
      && OwnIds(Add(g, e, suppressReasoning), message, reasoning)
    ensures Total(g) <= Total(Add(g, e, suppressReasoning))
    ensures Total(g) <= limit ==>
      (Taken(g, e, suppressReasoning, limit) <==> Total(Add(g, e, suppressReasoning)) <= limit)
  {
  }

  lemma {:induction false} TurnIsStable(sent: seq<GatewayEvent>, n: nat, m: nat, message: ItemId, reasoning: ItemId,
                                        suppressReasoning: bool)
    requires n <= m <= |sent| && forall i :: 0 <= i < |sent| ==> Runner.Emitted(sent[i], message, reasoning)
    ensures OwnIds(StreamedBefore(sent, m, suppressReasoning), message, reasoning)
    ensures Total(StreamedBefore(sent, n, suppressReasoning)) <= Total(StreamedBefore(sent, m, suppressReasoning))
    decreases m
  {
    hide Add, Runner.Emitted, Total;
    if m > 0 {
      TurnIsStable(sent, if n < m then n else m - 1, m - 1, message, reasoning, suppressReasoning);
      EmittedIsStable(StreamedBefore(sent, m - 1, suppressReasoning), sent[m - 1], message, reasoning,
                      suppressReasoning, 0);
    }
  }

  lemma {:induction false} SameStreamed(sent: seq<GatewayEvent>, last: GatewayEvent, n: nat, suppressReasoning: bool)
    requires n <= |sent|
    ensures StreamedBefore(sent + [last], n, suppressReasoning) == StreamedBefore(sent, n, suppressReasoning)
  {
    hide Add;
    if n > 0 {
      SameStreamed(sent, last, n - 1, suppressReasoning);
    }
  }

  /** Everything a turn sends before its response. */
  function Streamed(t: Runner.Turn, suppressReasoning: bool): Progress {
    StreamedBefore(t.sent, |t.sent|, suppressReasoning)
  }

  /**
   How far a turn's events are read: all keep to the ids announced, and the first one
   not taken breaks the limit, so the response is reached exactly if the limit is kept.
   */
  lemma TurnIsRead(t: Runner.Turn, last: GatewayEvent, used: nat, limit: nat, suppressReasoning: bool)
    requires Runner.Inv(t) && last.Finished? && used <= |t.sent|
    requires Total(StreamedBefore(t.sent + [last], used, suppressReasoning)) <= limit
    ensures StableAt(t.sent + [last], used, suppressReasoning, limit)
    ensures StreamedBefore(t.sent + [last], used, suppressReasoning) == StreamedBefore(t.sent, used, suppressReasoning)
    ensures used < |t.sent| && !TakenAt(t.sent + [last], used, suppressReasoning, limit) ==>
      Total(Streamed(t, suppressReasoning)) > limit
  {
    hide Taken, Stable, Add, Total, Runner.Emitted;
    SameStreamed(t.sent, last, used, suppressReasoning);
    var g := StreamedBefore(t.sent, used, suppressReasoning);
    TurnIsStable(t.sent, 0, used, t.message, t.reasoning, suppressReasoning);
    if used < |t.sent| {
      EmittedIsStable(g, t.sent[used], t.message, t.reasoning, suppressReasoning, limit);
      TurnIsStable(t.sent, used + 1, |t.sent|, t.message, t.reasoning, suppressReasoning);
    } else {
      EndsTheLoop(g, last, suppressReasoning, limit);
    }
  }

  lemma TurnIsTyped(t: Runner.Turn)
    requires Runner.Inv(t)
    ensures forall i :: 0 <= i < |t.sent| ==> Typed(t.sent[i]) && !t.sent[i].Finished? && !t.sent[i].Cancelled?
  {
  }

  /**
   A turn streamed to its end. It is delivered exactly if what was streamed keeps the
   limit and the response fits it; then each item's index on the wire is its position
   in the response, and the client was told every item of the response.
   */
  method StreamTurn(t: Runner.Turn, text: string, calls: seq<Item>, messageKey: string, reasoningKey: string,
                    maxOutputBytes: int, suppressReasoning: bool,
                    decode: Reconcile.Decoder, measure: Response -> Option<nat>)
    returns (frames: seq<Frame>, result: Result)
    requires Runner.Inv(t) && CapturedCalls(calls)
    ensures WellFormed(frames) && forall k :: 0 <= k < |frames| ==> WholeArguments(decode, frames, k)
    ensures result.Delivered? || result.FailureWritten?
    ensures var g, shown := Streamed(t, suppressReasoning),
                            Rendered(Runner.ResponseFromTurn(t, text, calls, messageKey, reasoningKey),
                                     suppressReasoning);
            result.Delivered? <==>
              Total(g) <= LimitOf(maxOutputBytes) && Delivers(decode, measure, shown, g, LimitOf(maxOutputBytes))
    ensures result.Delivered? ==>
      && result.response
        == Rendered(Runner.ResponseFromTurn(t, text, calls, messageKey, reasoningKey), suppressReasoning)
      && Observed(frames).order == Ids(result.response.output)
      && (forall k :: 0 <= k < |frames| ==> InPlace(Ids(result.response.output), frames[k].event))
      && forall i :: 0 <= i < |result.response.output| ==> Told(decode, Observed(frames), result.response.output[i])
  {
    hide Delivers, Add, Taken, Stable, Runner.Emitted, Runner.ResponseFromTurn, Total, InPlace, Told, Runner.Inv,
         WholeArguments,
         CapturedCalls;
    var response := Runner.ResponseFromTurn(t, text, calls, messageKey, reasoningKey);
    TurnIsAddressed(t, text, calls, messageKey, reasoningKey);
    TurnIsTyped(t);
    var last := GatewayEvent.Finished(Some(response));
    var events := t.sent + [last];
    ghost var used;
    frames, result, used := WriteResponseStreamEvents(events, maxOutputBytes, suppressReasoning, decode, measure);
    EndsTheLoop(StreamedBefore(events, |t.sent|, suppressReasoning), last, suppressReasoning, LimitOf(maxOutputBytes));
    assert !TakenAt(events, |t.sent|, suppressReasoning, LimitOf(maxOutputBytes));
    TurnIsRead(t, last, used, LimitOf(maxOutputBytes), suppressReasoning);
    assert used < |t.sent| ==> events[used] == t.sent[used];
    if result.Delivered? {
      assert used == |t.sent| && events[..used] == t.sent;
      CompletedCallsWereCaptured(t, text, calls, messageKey, reasoningKey, suppressReasoning);
      EveryIndexIsItsPosition(t, text, calls, messageKey, reasoningKey, suppressReasoning);
      forall k | 0 <= k < |frames| ensures InPlace(Observed(frames).order, frames[k].event) {
        EveryEventIsInPlace(frames, k);
      }
      forall i | 0 <= i < |result.response.output| ensures Told(decode, Observed(frames), result.response.output[i]) {
        assert Ids(result.response.output)[i] == result.response.output[i].id;
      }
    }
  }

  /** A stream that completes has found every call it streamed in the response. */
  lemma CompletedCallsWereCaptured(t: Runner.Turn, text: string, calls: seq<Item>, messageKey: string,
                                   reasoningKey: string, suppressReasoning: bool)
    requires Runner.Inv(t) && CapturedCalls(calls)
    requires StreamedItemsReturn(FirstSight(t.sent, suppressReasoning),
                                 Rendered(Runner.ResponseFromTurn(t, text, calls, messageKey, reasoningKey),
                                          suppressReasoning))
    ensures forall id :: id in t.order && id.ToolId? ==> id in Ids(calls)
  {
    var r, m := Runner.ReasoningItem(t, reasoningKey), Runner.MessageItem(t, text, calls, messageKey);
    var items := Runner.Natural(r, m, calls);
    var response := Runner.ResponseFromTurn(t, text, calls, messageKey, reasoningKey);
    TurnIdsAreDistinct(t, text, calls, messageKey, reasoningKey);
    NaturalItemIds(r, m, calls);
    Runner.ArrangedDistinct(items, t.order);
    Runner.AnnouncedItemsAreTheTurns(t.sent, t.message, t.reasoning);
    SuppressedSightKeepsCalls(t.sent, t.message, t.reasoning, suppressReasoning);
    forall id | id in t.order && id.ToolId? ensures id in Ids(calls) {
      ShownIdIsInTheResponse(response, suppressReasoning, id);
    }
  }

  lemma ShownIdIsInTheResponse(response: Response, suppressReasoning: bool, id: ItemId)
    requires id in Ids(Rendered(response, suppressReasoning).output)
    ensures id in Ids(response.output)
  {
    var shown := Rendered(response, suppressReasoning);
    NonReasoningMembers(response.output);
    var i :| 0 <= i < |shown.output| && Ids(shown.output)[i] == id;
    assert shown.output[i] in response.output;
    var j :| 0 <= j < |response.output| && response.output[j] == shown.output[i];
    assert Ids(response.output)[j] == id;
  }

  lemma {:induction false} SuppressedSightKeepsCalls(sent: seq<GatewayEvent>, message: ItemId, reasoning: ItemId,
                                                     suppressReasoning: bool)
    requires forall i :: 0 <= i < |sent| ==> Runner.Emitted(sent[i], message, reasoning)
    ensures forall id :: id in FirstSight(sent, false) && id.ToolId? ==> id in FirstSight(sent, suppressReasoning)
  {
    if sent != [] {
      var n := |sent| - 1;
      SuppressedSightKeepsCalls(sent[..n], message, reasoning, suppressReasoning);
      assert Runner.Emitted(sent[n], message, reasoning);
    }
  }
}
