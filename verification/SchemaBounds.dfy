/** JSON values, as a decoder that keeps exact numbers produces them. */
module JsonValues {
  datatype Json =
    | Null
    | Bool(b: bool)
    | Num(n: real)
    | Str(s: string)
    | Arr(items: seq<Json>)
    | Obj(members: map<string, Json>)
}

/**
 The rewrite of Draft-04 boolean exclusive bounds into the numeric form of
 Draft 2020-12 (internal/toolproxy/toolproxy.go, withNumericExclusiveBounds),
 and the proof that no evaluator can tell the rewritten schema from the original.
 */
module SchemaBounds {
  import opened Common
  import opened JsonValues

  type Object = map<string, Json>

  const SUBSCHEMA_KEYWORDS: set<string> := {
    "additionalItems", "additionalProperties", "contains", "contentSchema", "else", "if", "items", "not",
    "propertyNames", "then", "unevaluatedItems", "unevaluatedProperties"}
  const SUBSCHEMA_LIST_KEYWORDS: set<string> := {"allOf", "anyOf", "oneOf", "prefixItems"}
  const SUBSCHEMA_MAP_KEYWORDS: set<string> := {
    "$defs", "definitions", "dependencies", "dependentSchemas", "patternProperties", "properties"}
  const BOUND_KEYWORDS: set<string> := {"minimum", "exclusiveMinimum", "maximum", "exclusiveMaximum"}

  /** Folds one boolean flag into the bound it modifies. */
  function FoldBound(o: Object, exclusive: string, inclusive: string): (Object, bool) {
    if exclusive in o && o[exclusive].Bool? then
      var rest := o - {exclusive};
      if inclusive in rest && o[exclusive].b
      then ((rest - {inclusive})[exclusive := rest[inclusive]], true)
      else (rest, true)
    else
      (o, false)
  }

  function FoldBounds(o: Object): (Object, bool) {
    var (low, lowChanged) := FoldBound(o, "exclusiveMinimum", "minimum");
    var (high, highChanged) := FoldBound(low, "exclusiveMaximum", "maximum");
    (high, lowChanged || highChanged)
  }

  predicate Descends(keyword: string) {
    keyword in SUBSCHEMA_KEYWORDS || keyword in SUBSCHEMA_LIST_KEYWORDS || keyword in SUBSCHEMA_MAP_KEYWORDS
  }

  lemma FoldBoundsElsewhere(o: Object, k: string)
    requires k !in BOUND_KEYWORDS
    ensures k in FoldBounds(o).0 <==> k in o
    ensures k in o ==> FoldBounds(o).0[k] == o[k]
  {
  }

  /** The copy of a schema with its bounds folded, and whether anything was folded. */
  function RewriteObject(o: Object): (r: (Object, bool))
    decreases Obj(o), 1
  {
    var (flat, folded) := FoldBounds(o);
    var out := map k | k in flat :: if Descends(k) && k in o then RewriteValue(k, o[k]).0 else flat[k];
    (out, folded || exists k | k in o :: Descends(k) && RewriteValue(k, o[k]).1)
  }

  /** A subschema that is not an object is left alone. */
  function RewriteSchema(s: Json): (r: (Json, bool))
    decreases s, 2
  {
    match s
    case Obj(o) =>
      var (out, changed) := RewriteObject(o);
      if changed then (Obj(out), true) else (s, false)
    case _ => (s, false)
  }

  function RewriteList(items: seq<Json>): (r: (seq<Json>, bool))
    ensures |r.0| == |items|
    decreases items, 1
  {
    if items == [] then ([], false)
    else
      var head := RewriteSchema(items[0]);
      var tail := RewriteList(items[1..]);
      ([head.0] + tail.0, head.1 || tail.1)
  }

  function RewriteNamed(named: Object): (Object, bool)
    decreases Obj(named), 1
  {
    (map name | name in named :: RewriteSchema(named[name]).0,
     exists name | name in named :: RewriteSchema(named[name]).1)
  }

  /** What the rewrite does with the value of one keyword it descends through. */
  function RewriteValue(keyword: string, value: Json): (r: (Json, bool))
    decreases value, 3
  {
    if keyword in SUBSCHEMA_KEYWORDS && value.Obj? then
      RewriteSchema(value)
    else if (keyword in SUBSCHEMA_KEYWORDS || keyword in SUBSCHEMA_LIST_KEYWORDS) && value.Arr? then
      var (items, changed) := RewriteList(value.items);
      if changed then (Arr(items), true) else (value, false)
    else if keyword in SUBSCHEMA_MAP_KEYWORDS && value.Obj? then
      var (named, changed) := RewriteNamed(value.members);
      if changed then (Obj(named), true) else (value, false)
    else
      (value, false)
  }

  // ---- The flag reports exactly whether the copy differs -------------------

  lemma FoldBoundsFlag(o: Object)
    ensures FoldBounds(o).1 <==> FoldBounds(o).0 != o
  {
    var low := FoldBound(o, "exclusiveMinimum", "minimum");
    var out := FoldBounds(o).0;
    if low.1 {
      assert "exclusiveMinimum" in o;
      assert "exclusiveMinimum" !in out || "minimum" !in out;
      assert "exclusiveMinimum" in out ==> "minimum" in o;
    } else if FoldBounds(o).1 {
      assert "exclusiveMaximum" !in out || "maximum" !in out;
      assert "exclusiveMaximum" in out ==> "maximum" in o;
    }
  }

  lemma {:induction false} ObjectFlag(o: Object)
    ensures RewriteObject(o).1 <==> RewriteObject(o).0 != o
    decreases Obj(o), 1
  {
    FoldBoundsFlag(o);
    var flat := FoldBounds(o).0;
    var out := RewriteObject(o).0;
    forall k | k in o && Descends(k)
      ensures k in flat && flat[k] == o[k] && (RewriteValue(k, o[k]).1 <==> out[k] != o[k])
    {
      FoldBoundsElsewhere(o, k);
      ValueFlag(k, o[k]);
    }
    if FoldBounds(o).1 {
      if forall k :: k in BOUND_KEYWORDS ==> SameAt(flat, o, k) { FoldBoundsLocal(o); }
      var k :| k in BOUND_KEYWORDS && !SameAt(flat, o, k);
      assert !SameAt(out, o, k);
    } else {
      assert flat == o;
      if !RewriteObject(o).1 {
        assert out == o;
      }
    }
  }

  predicate SameAt(a: Object, b: Object, k: string) {
    (k in a <==> k in b) && (k in a ==> a[k] == b[k])
  }

  lemma FoldBoundsLocal(o: Object)
    requires forall k :: k in BOUND_KEYWORDS ==> SameAt(FoldBounds(o).0, o, k)
    ensures FoldBounds(o).0 == o
  {
    var flat := FoldBounds(o).0;
    forall k
      ensures SameAt(flat, o, k)
    {
      if k !in BOUND_KEYWORDS { FoldBoundsElsewhere(o, k); }
    }
    assert forall k :: k in flat.Keys <==> SameAt(flat, o, k) && k in o.Keys;
  }

  lemma {:induction false} SchemaFlag(s: Json)
    ensures RewriteSchema(s).1 <==> RewriteSchema(s).0 != s
    decreases s, 2
  {
    if s.Obj? { ObjectFlag(s.members); }
  }

  lemma {:induction false} ListFlag(items: seq<Json>)
    ensures RewriteList(items).1 <==> RewriteList(items).0 != items
    decreases items, 1
  {
    if items != [] {
      SchemaFlag(items[0]);
      ListFlag(items[1..]);
      assert items == [items[0]] + items[1..];
    }
  }

  lemma {:induction false} NamedFlag(named: Object)
    ensures RewriteNamed(named).1 <==> RewriteNamed(named).0 != named
    decreases Obj(named), 1
  {
    forall name | name in named
      ensures RewriteSchema(named[name]).1 <==> RewriteNamed(named).0[name] != named[name]
    {
      SchemaFlag(named[name]);
    }
  }

  lemma {:induction false} ValueFlag(keyword: string, value: Json)
    ensures RewriteValue(keyword, value).1 <==> RewriteValue(keyword, value).0 != value
    decreases value, 3
  {
    if keyword in SUBSCHEMA_KEYWORDS && value.Obj? {
      SchemaFlag(value);
    } else if value.Arr? {
      ListFlag(value.items);
    } else if value.Obj? {
      NamedFlag(value.members);
    }
  }

  /** Keywords that are neither bounds nor hold schemas keep their value: default, const, enum, examples... */
  lemma OtherKeywordsUntouched(o: Object, k: string)
    requires k !in BOUND_KEYWORDS && !Descends(k)
    ensures SameAt(RewriteObject(o).0, o, k)
  {
    FoldBoundsElsewhere(o, k);
  }

  lemma ValuesAreNotKeywords()
    ensures forall k :: k in {"default", "const", "enum", "examples", "$ref", "type"} ==>
      k !in BOUND_KEYWORDS && !Descends(k)
  {
  }

  // ---- Meaning -------------------------------------------------------------

  /** One side of a numeric range, as a draft reads it. */
  datatype Limit = Limit(inclusive: Option<real>, exclusive: Option<real>)

  function NumberAt(o: Object, k: string): Option<real> {
    if k in o && o[k].Num? then Some(o[k].n) else None
  }

  /** Sections 6.2.2 to 6.2.5 of JSON Schema Validation 2020-12: four independent numeric keywords. */
  function ReadNumeric(o: Object, exclusive: string, inclusive: string): Limit {
    Limit(NumberAt(o, inclusive), NumberAt(o, exclusive))
  }

  /** Sections 5.1.2 and 5.1.3 of JSON Schema Validation draft-04: a flag that modifies its bound. */
  function ReadFlagged(o: Object, exclusive: string, inclusive: string): Limit {
    if exclusive in o && o[exclusive].Bool? then
      if o[exclusive].b then Limit(None, NumberAt(o, inclusive)) else Limit(NumberAt(o, inclusive), None)
    else
      ReadNumeric(o, exclusive, inclusive)
  }

  function Low(flags: bool, s: Json): Limit {
    if !s.Obj? then Limit(None, None)
    else if flags then ReadFlagged(s.members, "exclusiveMinimum", "minimum")
    else ReadNumeric(s.members, "exclusiveMinimum", "minimum")
  }

  function High(flags: bool, s: Json): Limit {
    if !s.Obj? then Limit(None, None)
    else if flags then ReadFlagged(s.members, "exclusiveMaximum", "maximum")
    else ReadNumeric(s.members, "exclusiveMaximum", "maximum")
  }

  // Where the drafts hold schemas, keyword by keyword. Draft-04: sections 5.3.1, 5.4.4, 5.4.5 and 5.5 of
  // JSON Schema Validation. Draft 2020-12: sections 8.2.4, 10 and 11 of JSON Schema Core, section 8.5 of
  // JSON Schema Validation.

  predicate HoldsSchema04(k: string) {
    k == "additionalItems" || k == "additionalProperties" || k == "items" || k == "not"
  }

  predicate HoldsSchema2020(k: string) {
    || k == "additionalProperties" || k == "contains" || k == "contentSchema" || k == "else" || k == "if"
    || k == "items" || k == "not" || k == "propertyNames" || k == "then"
    || k == "unevaluatedItems" || k == "unevaluatedProperties"
  }

  predicate HoldsList04(k: string) {
    k == "allOf" || k == "anyOf" || k == "items" || k == "oneOf"
  }

  predicate HoldsList2020(k: string) {
    k == "allOf" || k == "anyOf" || k == "oneOf" || k == "prefixItems"
  }

  predicate HoldsNamed04(k: string) {
    k == "definitions" || k == "dependencies" || k == "patternProperties" || k == "properties"
  }

  predicate HoldsNamed2020(k: string) {
    k == "$defs" || k == "dependentSchemas" || k == "patternProperties" || k == "properties"
  }

  predicate HoldsSchema(k: string) { HoldsSchema04(k) || HoldsSchema2020(k) }

  predicate HoldsNamed(k: string) { HoldsNamed04(k) || HoldsNamed2020(k) }

  /**
   Besides the lists the drafts know, a list under a keyword for one schema counts:
   no draft allows it, and a reader that accepts it finds schemas there.
   */
  predicate HoldsList(k: string) { HoldsList04(k) || HoldsList2020(k) || HoldsSchema(k) }

  /** The rewrite descends through the keywords of the two drafts and no others. */
  lemma KeywordsAreTheDrafts(k: string)
    ensures k in SUBSCHEMA_KEYWORDS <==> HoldsSchema04(k) || HoldsSchema2020(k)
    ensures k in SUBSCHEMA_LIST_KEYWORDS <==> (HoldsList04(k) || HoldsList2020(k)) && k != "items"
    ensures k in SUBSCHEMA_MAP_KEYWORDS <==> HoldsNamed04(k) || HoldsNamed2020(k)
    ensures Descends(k) <==> HoldsSchema(k) || HoldsList(k) || HoldsNamed(k)
  {
  }

  /** Where a schema object can sit inside another. */
  datatype Position = Only(keyword: string) | Nth(keyword: string, index: nat) | Named(keyword: string, name: string)

  predicate HasChild(s: Json, p: Position) {
    s.Obj? && p.keyword in s.members &&
    var value := s.members[p.keyword];
    match p
    case Only(k) => HoldsSchema(k) && value.Obj?
    case Nth(k, i) => HoldsList(k) && value.Arr? && i < |value.items| && value.items[i].Obj?
    case Named(k, name) =>
      HoldsNamed(k) && value.Obj? && name in value.members && value.members[name].Obj?
  }

  function Child(s: Json, p: Position): (c: Json)
    requires HasChild(s, p)
    ensures c < s
  {
    var value := s.members[p.keyword];
    match p
    case Only(_) => value
    case Nth(_, i) => value.items[i]
    case Named(_, name) => value.members[name]
  }

  predicate HasPath(s: Json, path: seq<Position>) {
    path == [] || (HasChild(s, path[0]) && HasPath(Child(s, path[0]), path[1..]))
  }

  function At(s: Json, path: seq<Position>): Json
    requires HasPath(s, path)
  {
    if path == [] then s else At(Child(s, path[0]), path[1..])
  }

  const HOLE := Obj(map[])

  function Blank(s: Json): Json {
    if s.Obj? then HOLE else s
  }

  function BlankAll(items: seq<Json>): (r: seq<Json>)
    ensures |r| == |items|
  {
    if items == [] then [] else [Blank(items[0])] + BlankAll(items[1..])
  }

  function BlankValue(keyword: string, value: Json): Json {
    if HoldsSchema(keyword) && value.Obj? then HOLE
    else if HoldsList(keyword) && value.Arr? then Arr(BlankAll(value.items))
    else if HoldsNamed(keyword) && value.Obj? then
      Obj(map name | name in value.members :: Blank(value.members[name]))
    else value
  }

  /** A schema without its bounds and with its subschemas blanked out. */
  function Skeleton(s: Json): Json {
    if !s.Obj? then s
    else Obj(map k | k in s.members && k !in BOUND_KEYWORDS :: BlankValue(k, s.members[k]))
  }

  /** What an evaluator may ask of a subschema, or of a schema named by a pointer from the root. */
  datatype Query = Local(position: Position, instance: Json) | Pointer(path: seq<Position>, instance: Json)

  /**
   One step of an evaluator with outcomes in `O`: from the schema without its
   bounds, the two limits, the instance, and the outcomes of any subschemas and
   references on any instances. Every keyword other than the bounds is free.
   */
  type Evaluator<!O> = (Json, Limit, Limit, Json, Query -> Option<O>) -> O

  /** An evaluator sees subschemas only through their outcomes. */
  ghost predicate Compositional<O(!new)>(step: Evaluator<O>) {
    forall sk, low, high, v, f: Query -> Option<O>, g: Query -> Option<O>
      {:trigger step(sk, low, high, v, f), step(sk, low, high, v, g)}
      :: (forall q :: f(q) == g(q)) ==> step(sk, low, high, v, f) == step(sk, low, high, v, g)
  }

  /** Evaluation of schema `s` inside document `root`; `fuel` bounds the chain of references followed. */
  ghost function Eval<O(!new)>(step: Evaluator<O>, flags: bool, fuel: nat, root: Json, s: Json, v: Json): O
    decreases fuel, s, 1
  {
    step(Skeleton(s), Low(flags, s), High(flags, s), v, Answers(step, flags, fuel, root, s))
  }

  ghost function Answers<O(!new)>(step: Evaluator<O>, flags: bool, fuel: nat, root: Json, s: Json): Query -> Option<O>
    decreases fuel, s, 0
  {
    (q: Query) =>
      match q
      case Local(p, w) =>
        if HasChild(s, p) then Some(Eval(step, flags, fuel, root, Child(s, p), w)) else None
      case Pointer(path, w) =>
        if fuel > 0 && HasPath(root, path) then Some(Eval(step, flags, fuel - 1, root, At(root, path), w)) else None
  }

  lemma FoldBoundTranslates(o: Object, exclusive: string, inclusive: string)
    requires exclusive != inclusive
    ensures ReadNumeric(FoldBound(o, exclusive, inclusive).0, exclusive, inclusive)
      == ReadFlagged(o, exclusive, inclusive)
    ensures forall k :: k != exclusive && k != inclusive ==> SameAt(FoldBound(o, exclusive, inclusive).0, o, k)
  {
  }

  lemma FoldBoundsTranslates(o: Object)
    ensures var flat := FoldBounds(o).0;
            && ReadNumeric(flat, "exclusiveMinimum", "minimum") == ReadFlagged(o, "exclusiveMinimum", "minimum")
            && ReadNumeric(flat, "exclusiveMaximum", "maximum") == ReadFlagged(o, "exclusiveMaximum", "maximum")
  {
    var low := FoldBound(o, "exclusiveMinimum", "minimum").0;
    FoldBoundTranslates(o, "exclusiveMinimum", "minimum");
    FoldBoundTranslates(low, "exclusiveMaximum", "maximum");
    assert SameAt(low, o, "exclusiveMaximum") && SameAt(low, o, "maximum");
    var flat := FoldBounds(o).0;
    assert SameAt(flat, low, "exclusiveMinimum") && SameAt(flat, low, "minimum");
  }

  lemma BoundsHoldNoSchemas()
    ensures !Descends("minimum") && !Descends("exclusiveMinimum")
    ensures !Descends("maximum") && !Descends("exclusiveMaximum")
  {
  }

  lemma LeafFollowsFold(o: Object, k: string)
    requires !Descends(k)
    ensures SameAt(RewriteObject(o).0, FoldBounds(o).0, k)
  {
  }

  lemma LimitsTranslate(s: Json)
    ensures Low(false, RewriteSchema(s).0) == Low(true, s)
    ensures High(false, RewriteSchema(s).0) == High(true, s)
  {
    RewriteKeepsShape(s);
    if s.Obj? {
      var o := s.members;
      FoldBoundsTranslates(o);
      BoundsHoldNoSchemas();
      LeafFollowsFold(o, "minimum");
      LeafFollowsFold(o, "exclusiveMinimum");
      LeafFollowsFold(o, "maximum");
      LeafFollowsFold(o, "exclusiveMaximum");
    }
  }

  lemma {:induction false} RewrittenItem(items: seq<Json>, i: nat)
    requires i < |items|
    ensures RewriteList(items).0[i] == RewriteSchema(items[i]).0
  {
    if i > 0 {
      RewrittenItem(items[1..], i - 1);
    }
  }

  lemma RewriteKeepsShape(s: Json)
    ensures RewriteSchema(s).0.Obj? <==> s.Obj?
    ensures !s.Obj? ==> RewriteSchema(s).0 == s
    ensures s.Obj? ==> RewriteSchema(s).0 == Obj(RewriteObject(s.members).0)
  {
    if s.Obj? { ObjectFlag(s.members); }
  }

  lemma RewrittenKeyword(s: Json, k: string)
    requires s.Obj? && Descends(k)
    ensures var t := RewriteSchema(s).0;
            t.Obj? && (k in t.members <==> k in s.members)
            && (k in s.members ==> t.members[k] == RewriteValue(k, s.members[k]).0)
  {
    RewriteKeepsShape(s);
    FoldBoundsElsewhere(s.members, k);
  }

  /** The value a keyword holds after the rewrite, whether or not anything changed. */
  lemma RewrittenValue(k: string, value: Json)
    ensures var r := RewriteValue(k, value).0;
            if HoldsSchema(k) && value.Obj? then r == RewriteSchema(value).0
            else if HoldsList(k) && value.Arr? then r == Arr(RewriteList(value.items).0)
            else if HoldsNamed(k) && value.Obj? then r == Obj(RewriteNamed(value.members).0)
            else r == value
  {
    KeywordsAreTheDrafts(k);
    hide HoldsSchema04, HoldsSchema2020, HoldsList04, HoldsList2020, HoldsNamed04, HoldsNamed2020;
    if value.Arr? { ListFlag(value.items); }
    if value.Obj? { NamedFlag(value.members); }
  }

  lemma ChildTranslates(s: Json, p: Position)
    ensures HasChild(RewriteSchema(s).0, p) <==> HasChild(s, p)
    ensures HasChild(s, p) ==> Child(RewriteSchema(s).0, p) == RewriteSchema(Child(s, p)).0
  {
    hide RewriteObject, Descends, HoldsSchema04, HoldsSchema2020, HoldsList04, HoldsList2020, HoldsNamed04,
         HoldsNamed2020;
    RewriteKeepsShape(s);
    KeywordsAreTheDrafts(p.keyword);
    if s.Obj? && Descends(p.keyword) {
      RewrittenKeyword(s, p.keyword);
      if p.keyword in s.members {
        var value := s.members[p.keyword];
        RewrittenValue(p.keyword, value);
        if value.Obj? { RewriteKeepsShape(value); }
        if value.Arr? && p.Nth? && p.index < |value.items| {
          RewrittenItem(value.items, p.index);
          RewriteKeepsShape(value.items[p.index]);
        }
        if value.Obj? && p.Named? && p.name in value.members {
          RewriteKeepsShape(value.members[p.name]);
        }
      }
    }
  }

  lemma {:induction false} PathTranslates(s: Json, path: seq<Position>)
    ensures HasPath(RewriteSchema(s).0, path) <==> HasPath(s, path)
    ensures HasPath(s, path) ==> At(RewriteSchema(s).0, path) == RewriteSchema(At(s, path)).0
    decreases |path|
  {
    if path != [] {
      ChildTranslates(s, path[0]);
      if HasChild(s, path[0]) {
        PathTranslates(Child(s, path[0]), path[1..]);
      }
    }
  }

  lemma {:induction false} BlankAllTranslates(items: seq<Json>)
    ensures BlankAll(RewriteList(items).0) == BlankAll(items)
  {
    if items != [] {
      RewriteKeepsShape(items[0]);
      BlankAllTranslates(items[1..]);
    }
  }

  lemma BlankValueTranslates(k: string, value: Json)
    ensures BlankValue(k, RewriteValue(k, value).0) == BlankValue(k, value)
  {
    RewrittenValue(k, value);
    RewriteKeepsShape(value);
    if value.Arr? { BlankAllTranslates(value.items); }
    if value.Obj? {
      forall name | name in value.members
        ensures Blank(RewriteSchema(value.members[name]).0) == Blank(value.members[name])
      {
        RewriteKeepsShape(value.members[name]);
      }
    }
  }

  lemma SkeletonTranslates(s: Json)
    ensures Skeleton(RewriteSchema(s).0) == Skeleton(s)
  {
    hide RewriteSchema, RewriteObject, BlankValue, Descends;
    RewriteKeepsShape(s);
    if s.Obj? {
      var t := RewriteSchema(s).0;
      forall k | k !in BOUND_KEYWORDS
        ensures k in t.members <==> k in s.members
        ensures k in s.members ==> BlankValue(k, t.members[k]) == BlankValue(k, s.members[k])
      {
        if Descends(k) {
          RewrittenKeyword(s, k);
          if k in s.members { BlankValueTranslates(k, s.members[k]); }
        } else {
          OtherKeywordsUntouched(s.members, k);
        }
      }
    }
  }

  /**
   The rewrite preserves meaning: for every evaluator, every document and every
   instance, reading the original with Draft-04 flags and reading the rewritten
   document with numeric bounds only give the same outcome.
   */
  lemma {:induction false} RewritePreservesMeaning<O(!new)>(
    step: Evaluator<O>, fuel: nat, root: Json, s: Json, v: Json)
    requires Compositional(step)
    ensures Eval(step, false, fuel, RewriteSchema(root).0, RewriteSchema(s).0, v) == Eval(step, true, fuel, root, s, v)
    decreases fuel, s
  {
    var root', s' := RewriteSchema(root).0, RewriteSchema(s).0;
    SkeletonTranslates(s);
    LimitsTranslate(s);
    var f := Answers(step, true, fuel, root, s);
    var g := Answers(step, false, fuel, root', s');
    forall q
      ensures f(q) == g(q)
    {
      match q
      case Local(p, w) =>
        ChildTranslates(s, p);
        if HasChild(s, p) { RewritePreservesMeaning(step, fuel, root, Child(s, p), w); }
      case Pointer(path, w) =>
        PathTranslates(root, path);
        if fuel > 0 && HasPath(root, path) { RewritePreservesMeaning(step, fuel - 1, root, At(root, path), w); }
    }
  }

  // ---- A concrete evaluator ------------------------------------------------

  ghost predicate InRange(low: Limit, high: Limit, x: real) {
    && (low.inclusive.Some? ==> low.inclusive.value <= x)
    && (low.exclusive.Some? ==> low.exclusive.value < x)
    && (high.inclusive.Some? ==> x <= high.inclusive.value)
    && (high.exclusive.Some? ==> x < high.exclusive.value)
  }

  /** The verdict of the schema written at `p`, which may also be the schema `true` or `false`. */
  ghost predicate Holds(written: Json, p: Position, w: Json, ask: Query -> Option<bool>) {
    if written.Bool? then written.b else ask(Local(p, w)) == Some(true)
  }

  ghost predicate ListHolds(o: Object, k: string, i: nat, v: Json, ask: Query -> Option<bool>)
    requires k in o && o[k].Arr? && i < |o[k].items|
  {
    Holds(o[k].items[i], Nth(k, i), v, ask)
  }

  ghost predicate Combinators(o: Object, v: Json, ask: Query -> Option<bool>) {
    && ("allOf" in o && o["allOf"].Arr? ==>
          forall i :: 0 <= i < |o["allOf"].items| ==> ListHolds(o, "allOf", i, v, ask))
    && ("anyOf" in o && o["anyOf"].Arr? ==>
          exists i :: 0 <= i < |o["anyOf"].items| && ListHolds(o, "anyOf", i, v, ask))
    && ("oneOf" in o && o["oneOf"].Arr? ==>
          exists i :: && 0 <= i < |o["oneOf"].items| && ListHolds(o, "oneOf", i, v, ask)
                      && forall j :: 0 <= j < |o["oneOf"].items| && ListHolds(o, "oneOf", j, v, ask) ==> j == i)
    && ("not" in o ==> !Holds(o["not"], Only("not"), v, ask))
    && ("if" in o ==>
          if Holds(o["if"], Only("if"), v, ask)
          then "then" in o ==> Holds(o["then"], Only("then"), v, ask)
          else "else" in o ==> Holds(o["else"], Only("else"), v, ask))
  }

  ghost predicate Members(o: Object, v: Json, ask: Query -> Option<bool>) {
    v.Obj? ==>
      forall name :: name in v.members ==>
        if "properties" in o && o["properties"].Obj? && name in o["properties"].members
        then Holds(o["properties"].members[name], Named("properties", name), v.members[name], ask)
        else "additionalProperties" in o ==>
               Holds(o["additionalProperties"], Only("additionalProperties"), v.members[name], ask)
  }

  ghost predicate Elements(o: Object, v: Json, ask: Query -> Option<bool>) {
    v.Arr? && "items" in o ==>
      forall i :: 0 <= i < |v.items| ==>
        if !o["items"].Arr? then Holds(o["items"], Only("items"), v.items[i], ask)
        else if i < |o["items"].items| then Holds(o["items"].items[i], Nth("items", i), v.items[i], ask)
        else "additionalItems" in o ==> Holds(o["additionalItems"], Only("additionalItems"), v.items[i], ask)
  }

  ghost predicate Verdict(
    follow: string -> seq<Position>, sk: Json, low: Limit, high: Limit, v: Json, ask: Query -> Option<bool>)
  {
    if sk.Bool? then sk.b
    else
      && sk.Obj?
      && (v.Num? ==> InRange(low, high, v.n))
      && ("const" in sk.members ==> v == sk.members["const"])
      && ("enum" in sk.members && sk.members["enum"].Arr? ==> v in sk.members["enum"].items)
      && ("$ref" in sk.members && sk.members["$ref"].Str? ==>
            ask(Pointer(follow(sk.members["$ref"].s), v)) == Some(true))
      && Combinators(sk.members, v, ask)
      && Members(sk.members, v, ask)
      && Elements(sk.members, v, ask)
  }

  /** A validator for the common keywords; `follow` reads a `$ref` string as a pointer. */
  ghost function Validator(follow: string -> seq<Position>): Evaluator<bool> {
    (sk: Json, low: Limit, high: Limit, v: Json, ask: Query -> Option<bool>) => Verdict(follow, sk, low, high, v, ask)
  }

  lemma CombinatorsCompositional(o: Object, v: Json, f: Query -> Option<bool>, g: Query -> Option<bool>)
    requires forall q :: f(q) == g(q)
    ensures Combinators(o, v, f) == Combinators(o, v, g)
  {
    forall k, i: nat | k in o && o[k].Arr? && i < |o[k].items|
      ensures ListHolds(o, k, i, v, f) == ListHolds(o, k, i, v, g)
    {
    }
  }

  lemma ValidatorIsCompositional(follow: string -> seq<Position>)
    ensures Compositional(Validator(follow))
  {
    var step := Validator(follow);
    forall sk, low, high, v, f: Query -> Option<bool>, g: Query -> Option<bool> | forall q :: f(q) == g(q)
      ensures step(sk, low, high, v, f) == step(sk, low, high, v, g)
    {
      if sk.Obj? {
        CombinatorsCompositional(sk.members, v, f, g);
      }
    }
  }

  /** An instance is valid for the original read with flags exactly if it is valid for the rewrite. */
  lemma SameInstancesAreValid(follow: string -> seq<Position>, fuel: nat, s: Json, v: Json)
    ensures Eval(Validator(follow), true, fuel, s, s, v)
       <==> Eval(Validator(follow), false, fuel, RewriteSchema(s).0, RewriteSchema(s).0, v)
  {
    ValidatorIsCompositional(follow);
    RewritePreservesMeaning(Validator(follow), fuel, s, s, v);
  }

  // ---- Flags: where a rewrite is due, and where one is left ----------------

  /** A boolean exclusive bound stands in the object `s` itself. */
  predicate HasFlag(s: Json) {
    s.Obj? &&
    (|| ("exclusiveMinimum" in s.members && s.members["exclusiveMinimum"].Bool?)
     || ("exclusiveMaximum" in s.members && s.members["exclusiveMaximum"].Bool?))
  }

  predicate FlaggedAt(s: Json, path: seq<Position>) {
    HasPath(s, path) && HasFlag(At(s, path))
  }

  /** Whether a fold happens depends on the flag alone. */
  lemma FoldFlag(o: Object)
    ensures FoldBounds(o).1 <==> HasFlag(Obj(o))
  {
  }

  lemma {:induction false} ListReports(items: seq<Json>, i: nat)
    requires i < |items| && RewriteSchema(items[i]).1
    ensures RewriteList(items).1
  {
    if i > 0 {
      ListReports(items[1..], i - 1);
    }
  }

  lemma {:induction false} ReportedItem(items: seq<Json>) returns (i: nat)
    requires RewriteList(items).1
    ensures i < |items| && RewriteSchema(items[i]).1
  {
    if RewriteSchema(items[0]).1 {
      i := 0;
    } else {
      i := ReportedItem(items[1..]);
      i := i + 1;
    }
  }

  lemma ChildReports(s: Json, p: Position)
    requires HasChild(s, p) && RewriteSchema(Child(s, p)).1
    ensures RewriteSchema(s).1
  {
    var k := p.keyword;
    var value := s.members[k];
    KeywordsAreTheDrafts(k);
    hide HoldsSchema04, HoldsSchema2020, HoldsList04, HoldsList2020, HoldsNamed04, HoldsNamed2020, Descends;
    if p.Nth? { ListReports(value.items, p.index); }
    assert RewriteValue(k, value).1;
  }

  lemma {:induction false} FlagIsReported(s: Json, path: seq<Position>)
    requires FlaggedAt(s, path)
    ensures RewriteSchema(s).1
    decreases |path|
  {
    hide HasChild;
    if path == [] {
      FoldFlag(s.members);
    } else {
      FlagIsReported(Child(s, path[0]), path[1..]);
      ChildReports(s, path[0]);
    }
  }

  /** A value the rewrite changes holds a subschema the rewrite changes. */
  lemma ReportedChild(s: Json, k: string) returns (p: Position)
    requires s.Obj? && k in s.members && RewriteValue(k, s.members[k]).1
    ensures HasChild(s, p) && RewriteSchema(Child(s, p)).1
  {
    var value := s.members[k];
    KeywordsAreTheDrafts(k);
    hide HoldsSchema04, HoldsSchema2020, HoldsList04, HoldsList2020, HoldsNamed04, HoldsNamed2020;
    if value.Arr? {
      var i := ReportedItem(value.items);
      p := Nth(k, i);
    } else if HoldsSchema(k) {
      p := Only(k);
    } else {
      var name :| name in value.members && RewriteSchema(value.members[name]).1;
      p := Named(k, name);
    }
  }

  lemma {:induction false} ReportedFlag(s: Json) returns (path: seq<Position>)
    requires RewriteSchema(s).1
    ensures FlaggedAt(s, path)
    decreases s
  {
    hide RewriteValue, FoldBounds, HasFlag, HasChild;
    FoldFlag(s.members);
    if FoldBounds(s.members).1 {
      path := [];
    } else {
      var k :| k in s.members && RewriteValue(k, s.members[k]).1;
      var p := ReportedChild(s, k);
      var rest := ReportedFlag(Child(s, p));
      path := [p] + rest;
      assert path[1..] == rest;
    }
  }

  /** The rewrite changes a schema exactly if a boolean exclusive bound stands at one of its schema positions. */
  lemma ChangedExactlyIfFlagged(s: Json)
    ensures RewriteSchema(s).1 <==> exists path :: FlaggedAt(s, path)
    ensures RewriteSchema(s).0 != s <==> exists path :: FlaggedAt(s, path)
  {
    hide FlaggedAt, RewriteSchema;
    SchemaFlag(s);
    if RewriteSchema(s).1 {
      var path := ReportedFlag(s);
    } else if path :| FlaggedAt(s, path) {
      FlagIsReported(s, path);
    }
  }

  /** A raised flag over a bound that is itself a boolean: folding it leaves a boolean behind. */
  predicate RaisedOverBool(o: Object, exclusive: string, inclusive: string) {
    exclusive in o && o[exclusive] == Bool(true) && inclusive in o && o[inclusive].Bool?
  }

  predicate Raised(s: Json) {
    s.Obj? &&
    (|| RaisedOverBool(s.members, "exclusiveMinimum", "minimum")
     || RaisedOverBool(s.members, "exclusiveMaximum", "maximum"))
  }

  predicate RaisedAt(s: Json, path: seq<Position>) {
    HasPath(s, path) && Raised(At(s, path))
  }

  /** No schema position of `s` raises an exclusive flag over a boolean bound. */
  ghost predicate Settled(s: Json) {
    forall path :: !RaisedAt(s, path)
  }

  lemma RefoldBound(o: Object, exclusive: string, inclusive: string)
    requires exclusive != inclusive
    ensures FoldBound(FoldBound(o, exclusive, inclusive).0, exclusive, inclusive).1 <==>
      RaisedOverBool(o, exclusive, inclusive)
  {
  }

  lemma RefoldBounds(o: Object)
    ensures FoldBounds(RewriteObject(o).0).1 <==>
      RaisedOverBool(o, "exclusiveMinimum", "minimum") || RaisedOverBool(o, "exclusiveMaximum", "maximum")
  {
    var out, flat := RewriteObject(o).0, FoldBounds(o).0;
    BoundsHoldNoSchemas();
    LeafFollowsFold(o, "exclusiveMinimum");
    LeafFollowsFold(o, "exclusiveMaximum");
    FoldFlag(out);
    var low := FoldBound(o, "exclusiveMinimum", "minimum").0;
    FoldBoundTranslates(o, "exclusiveMinimum", "minimum");
    FoldBoundTranslates(low, "exclusiveMaximum", "maximum");
    RefoldBound(o, "exclusiveMinimum", "minimum");
    RefoldBound(low, "exclusiveMaximum", "maximum");
    assert SameAt(low, o, "exclusiveMaximum") && SameAt(low, o, "maximum");
    assert SameAt(flat, low, "exclusiveMinimum");
  }

  /** A boolean exclusive bound is left in a rewrite exactly where a flag was raised over a boolean bound. */
  lemma FlagIsLeftExactlyIf(s: Json, path: seq<Position>)
    ensures FlaggedAt(RewriteSchema(s).0, path) <==> RaisedAt(s, path)
  {
    hide HasPath, At, RewriteSchema, RewriteObject;
    PathTranslates(s, path);
    if HasPath(s, path) {
      var c := At(s, path);
      RewriteKeepsShape(c);
      if c.Obj? {
        RefoldBounds(c.members);
        FoldFlag(RewriteObject(c.members).0);
      }
    }
  }

  /** The rewrite of a settled schema, and of no other, is free of boolean exclusive bounds at every schema position. */
  lemma SettledLeavesNoFlag(s: Json)
    ensures Settled(s) <==> forall path :: !FlaggedAt(RewriteSchema(s).0, path)
  {
    hide FlaggedAt, RaisedAt, RewriteSchema;
    if path :| RaisedAt(s, path) {
      FlagIsLeftExactlyIf(s, path);
    } else if path :| FlaggedAt(RewriteSchema(s).0, path) {
      FlagIsLeftExactlyIf(s, path);
    }
  }

  /** The rewrite is idempotent exactly on settled schemas. */
  lemma SchemaSettles(s: Json)
    ensures RewriteSchema(RewriteSchema(s).0).1 <==> !Settled(s)
    ensures RewriteSchema(RewriteSchema(s).0).0 == RewriteSchema(s).0 <==> Settled(s)
  {
    hide FlaggedAt, Settled, RewriteSchema;
    SettledLeavesNoFlag(s);
    ChangedExactlyIfFlagged(RewriteSchema(s).0);
  }

  /** The flag over a boolean bound, the input that shows the rewrite is not idempotent in general. */
  lemma RewritingTwiceCanDiffer()
    ensures var s := Obj(map["minimum" := Bool(true), "exclusiveMinimum" := Bool(true)]);
            RewriteSchema(RewriteSchema(s).0).0 != RewriteSchema(s).0
  {
    var o := map["minimum" := Bool(true), "exclusiveMinimum" := Bool(true)];
    assert RaisedAt(Obj(o), []);
    SchemaSettles(Obj(o));
  }
}
