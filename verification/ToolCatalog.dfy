/**
 Sorting by a key and its uniqueness: the canonical order of a catalog does not
 depend on the order its tools came in.
 */
module KeyedSort {

  /** Compared field by field; kinds, namespaces and names are numbered in their text order. */
  datatype SortKey = SortKey(kind: nat, namespace: nat, name: nat)

  predicate Less(a: SortKey, b: SortKey) {
    a.kind < b.kind
    || (a.kind == b.kind && (a.namespace < b.namespace || (a.namespace == b.namespace && a.name < b.name)))
  }

  datatype Keyed<+T> = Keyed(key: SortKey, value: T)

  /** Stable: a new entry goes behind the ones it is not less than. */
  function Insert<T>(x: Keyed<T>, s: seq<Keyed<T>>): seq<Keyed<T>> {
    if s == [] then [x]
    else if Less(x.key, s[0].key) then [x] + s
    else [s[0]] + Insert(x, s[1..])
  }

  function Sort<T>(s: seq<Keyed<T>>): seq<Keyed<T>> {
    if s == [] then [] else Insert(s[|s| - 1], Sort(s[..|s| - 1]))
  }

  ghost function Elements<T>(s: seq<Keyed<T>>): set<Keyed<T>> {
    set x | x in s
  }

  ghost predicate Ascending<T>(s: seq<Keyed<T>>) {
    s == [] || ((forall x :: x in s[1..] ==> Less(s[0].key, x.key)) && Ascending(s[1..]))
  }

  lemma {:induction false} InsertElements<T>(x: Keyed<T>, s: seq<Keyed<T>>)
    ensures Elements(Insert(x, s)) == Elements(s) + {x} && |Insert(x, s)| == |s| + 1
  {
    if s != [] {
      assert s == [s[0]] + s[1..];
      InsertElements(x, s[1..]);
      assert Elements(s) == {s[0]} + Elements(s[1..]);
      if !Less(x.key, s[0].key) {
        assert Elements(Insert(x, s)) == {s[0]} + Elements(Insert(x, s[1..]));
      } else {
        assert Elements([x] + s) == {x} + Elements(s);
      }
    }
  }

  lemma {:induction false} SortElements<T>(s: seq<Keyed<T>>)
    ensures Elements(Sort(s)) == Elements(s) && |Sort(s)| == |s|
  {
    if s != [] {
      var n := |s| - 1;
      SortElements(s[..n]);
      InsertElements(s[n], Sort(s[..n]));
      assert s == s[..n] + [s[n]];
      assert Elements(s) == Elements(s[..n]) + {s[n]};
    }
  }

  lemma {:induction false} InsertAscends<T>(x: Keyed<T>, s: seq<Keyed<T>>)
    requires Ascending(s) && forall y :: y in s ==> y.key != x.key
    ensures Ascending(Insert(x, s))
  {
    if s != [] {
      var r := Insert(x, s);
      if Less(x.key, s[0].key) {
        assert r[1..] == s;
        assert forall y :: y in s ==> y == s[0] || y in s[1..];
      } else {
        InsertAscends(x, s[1..]);
        assert r[1..] == Insert(x, s[1..]);
        InsertElements(x, s[1..]);
        assert forall y :: y in r[1..] ==> y in Elements(r[1..]);
        assert forall y :: y in Elements(s[1..]) ==> y in s[1..];
      }
    }
  }

  /** Entries with distinct keys are put in strictly ascending order. */
  lemma {:induction false} SortAscends<T>(s: seq<Keyed<T>>)
    requires forall i, j :: 0 <= i < j < |s| ==> s[i].key != s[j].key
    ensures Ascending(Sort(s))
  {
    if s != [] {
      var n := |s| - 1;
      SortAscends(s[..n]);
      SortElements(s[..n]);
      forall y | y in Sort(s[..n]) ensures y.key != s[n].key {
        assert y in Elements(Sort(s[..n]));
        assert y in s[..n];
      }
      InsertAscends(s[n], Sort(s[..n]));
    }
  }

  lemma OnlyEmptyHasNone<T>(s: seq<Keyed<T>>)
    ensures Elements(s) == {} ==> s == []
  {
    if s != [] { assert s[0] in Elements(s); }
  }

  /** A set has one ascending enumeration. */
  lemma {:induction false} AscendingIsUnique<T>(a: seq<Keyed<T>>, b: seq<Keyed<T>>)
    requires Ascending(a) && Ascending(b) && Elements(a) == Elements(b)
    ensures a == b
  {
    if a == [] {
      OnlyEmptyHasNone(b);
    } else {
      assert a[0] in Elements(b);
      assert b != [];
      assert b[0] in Elements(a);
      assert forall x :: x in a ==> x == a[0] || x in a[1..];
      assert forall x :: x in b ==> x == b[0] || x in b[1..];
      assert a[0] == b[0];
      forall x ensures x in Elements(a[1..]) <==> x in Elements(b[1..]) {
        if x in a[1..] { assert x in a && Less(a[0].key, x.key); assert x in Elements(b); }
        if x in b[1..] { assert x in b && Less(b[0].key, x.key); assert x in Elements(a); }
      }
      AscendingIsUnique(a[1..], b[1..]);
      assert a == [a[0]] + a[1..] && b == [b[0]] + b[1..];
    }
  }
}

/**
 The catalog of installed tools (internal/toolcatalog/catalog.go and tools.go):
 validation, merging, the order-independent key and the stored form.

 A catalog's meaning is a set: its tools with the namespace each belongs to, and
 its namespaces with their headers.
 */
module ToolCatalog {
  import opened Common
  import opened KeyedSort

  /**
   Names are compared for equality and order only: a number stands for each, in text order,
   and 0 for the empty one.
   */
  type Name = nat

  const UNNAMED: Name := 0

  const MAX_LOADED_TOOL_COUNT := 128
  const MAX_INSTALLED_TOOL_COUNT := 512

  datatype Execution = Unset | Client | Elsewhere

  /** Description, schema, format and flags are one text here; `Rules.canonical` says when two mean the same. */
  datatype Spec = Spec(text: nat, execution: Execution)

  datatype Leaf = Leaf(kind: ToolKind, namespace: Name, name: Name, spec: Spec)

  datatype Tool = Single(leaf: Leaf) | Namespace(name: Name, header: Spec, children: seq<Leaf>)

  /** A tool as the semantic key sees it. */
  datatype Meaning = Meaning(kind: ToolKind, namespace: Name, name: Name, canonical: nat)

  datatype Header = Header(name: Name, canonical: nat)

  /**
   What the catalog takes from elsewhere: the identity and the SDK name of a kind,
   namespace and name; the canonical form of a spec; and the size and JSON checks.
   */
  datatype Rules = Rules(
    identity: (ToolKind, Name, Name) -> nat,
    sdkName: (ToolKind, Name, Name) -> nat,
    sentinel: nat,
    canonical: Spec -> nat,
    fitsStored: seq<Tool> -> bool,
    withinLoadLimits: seq<Tool> -> bool,
    validJson: (ToolKind, Spec) -> bool,
    toolSearchName: Name)

  function MeaningOf(rules: Rules, leaf: Leaf): Meaning {
    Meaning(leaf.kind, leaf.namespace, leaf.name, rules.canonical(leaf.spec))
  }

  function Identity(rules: Rules, m: Meaning): nat {
    rules.identity(m.kind, m.namespace, m.name)
  }

  function SdkName(rules: Rules, m: Meaning): nat {
    rules.sdkName(m.kind, m.namespace, m.name)
  }

  function Placed(leaf: Leaf, namespace: Name): Leaf {
    leaf.(namespace := namespace)
  }

  function PlacedAll(children: seq<Leaf>, namespace: Name): (placed: seq<Leaf>)
    ensures |placed| == |children| && forall i :: 0 <= i < |children| ==> placed[i] == Placed(children[i], namespace)
  {
    if children == [] then []
    else PlacedAll(children[..|children| - 1], namespace) + [Placed(children[|children| - 1], namespace)]
  }

  function Meanings(rules: Rules, leaves: seq<Leaf>): set<Meaning> {
    if leaves == [] then {}
    else Meanings(rules, leaves[..|leaves| - 1]) + {MeaningOf(rules, leaves[|leaves| - 1])}
  }

  /** The tools a catalog entry stands for. */
  function Leaves(tool: Tool): seq<Leaf> {
    if tool.Single? then [tool.leaf] else PlacedAll(tool.children, tool.name)
  }

  function Flat(tools: seq<Tool>): seq<Leaf> {
    if tools == [] then [] else Flat(tools[..|tools| - 1]) + Leaves(tools[|tools| - 1])
  }

  function HeaderOf(rules: Rules, tool: Tool): Header
    requires tool.Namespace?
  {
    Header(tool.name, rules.canonical(tool.header))
  }

  function Headers(rules: Rules, tools: seq<Tool>): set<Header> {
    if tools == [] then {}
    else Headers(rules, tools[..|tools| - 1])
         + if tools[|tools| - 1].Namespace? then {HeaderOf(rules, tools[|tools| - 1])} else {}
  }

  // ---- Validity ----------------------------------------------------------------

  /** Identities and SDK names tell tools apart, and no tool takes the sentinel's. */
  ghost predicate Coherent(rules: Rules, tools: set<Meaning>, headers: set<Header>) {
    && (forall a, b :: a in tools && b in tools && Identity(rules, a) == Identity(rules, b) ==> a == b)
    && (forall a, b :: a in tools && b in tools && SdkName(rules, a) == SdkName(rules, b) ==> a == b)
    && (forall a :: a in tools ==> SdkName(rules, a) != rules.sentinel)
    && (forall g, h :: g in headers && h in headers && g.name == h.name ==> g == h)
  }

  ghost predicate NoEmptyNamespace(tools: seq<Tool>) {
    forall i :: 0 <= i < |tools| && tools[i].Namespace? ==> tools[i].children != []
  }

  ghost predicate DistinctNamespaces(tools: seq<Tool>) {
    forall i, j :: 0 <= i < j < |tools| && tools[i].Namespace? && tools[j].Namespace? ==> tools[i].name != tools[j].name
  }

  /** No tool and no namespace is listed twice. */
  ghost predicate NoRepeats(rules: Rules, tools: seq<Tool>) {
    |Flat(tools)| == |Meanings(rules, Flat(tools))| && DistinctNamespaces(tools)
  }

  ghost predicate Valid(rules: Rules, tools: seq<Tool>) {
    NoEmptyNamespace(tools) && NoRepeats(rules, tools)
      && Coherent(rules, Meanings(rules, Flat(tools)), Headers(rules, tools))
  }

  lemma {:induction false} MeaningsAppend(rules: Rules, a: seq<Leaf>, b: seq<Leaf>)
    ensures Meanings(rules, a + b) == Meanings(rules, a) + Meanings(rules, b)
  {
    if b == [] {
      assert a + b == a;
    } else {
      MeaningsAppend(rules, a, b[..|b| - 1]);
      assert (a + b)[..|a + b| - 1] == a + b[..|b| - 1];
    }
  }

  lemma {:induction false} MeaningsCount(rules: Rules, leaves: seq<Leaf>)
    ensures |Meanings(rules, leaves)| <= |leaves|
  {
    if leaves != [] { MeaningsCount(rules, leaves[..|leaves| - 1]); }
  }

  lemma {:induction false} MeaningsMembers(rules: Rules, leaves: seq<Leaf>, m: Meaning)
    ensures m in Meanings(rules, leaves) <==> exists i :: 0 <= i < |leaves| && MeaningOf(rules, leaves[i]) == m
  {
    if leaves != [] {
      var n := |leaves| - 1;
      MeaningsMembers(rules, leaves[..n], m);
      if m in Meanings(rules, leaves[..n]) {
        var i :| 0 <= i < n && MeaningOf(rules, leaves[..n][i]) == m;
        assert MeaningOf(rules, leaves[i]) == m;
      }
      if i :| 0 <= i < |leaves| && MeaningOf(rules, leaves[i]) == m {
        if i < n { assert leaves[..n][i] == leaves[i]; }
      }
    }
  }

  // The validator's maps: one entry for each name it has met.

  function Identities(rules: Rules, leaves: seq<Leaf>): set<nat> {
    if leaves == [] then {}
    else Identities(rules, leaves[..|leaves| - 1]) + {Identity(rules, MeaningOf(rules, leaves[|leaves| - 1]))}
  }

  function SdkNames(rules: Rules, leaves: seq<Leaf>): set<nat> {
    if leaves == [] then {rules.sentinel}
    else SdkNames(rules, leaves[..|leaves| - 1]) + {SdkName(rules, MeaningOf(rules, leaves[|leaves| - 1]))}
  }

  /** Every tool brings a name of each sort that was not there before. */
  predicate AllNew(rules: Rules, leaves: seq<Leaf>) {
    leaves == [] ||
    var init, m := leaves[..|leaves| - 1], MeaningOf(rules, leaves[|leaves| - 1]);
    AllNew(rules, init) && Identity(rules, m) !in Identities(rules, init) && SdkName(rules, m) !in SdkNames(rules, init)
  }

  lemma {:induction false} NamesOfMeanings(rules: Rules, leaves: seq<Leaf>)
    ensures forall m :: m in Meanings(rules, leaves) ==>
      Identity(rules, m) in Identities(rules, leaves) && SdkName(rules, m) in SdkNames(rules, leaves)
    ensures forall id :: id in Identities(rules, leaves) ==>
      exists m :: m in Meanings(rules, leaves) && Identity(rules, m) == id
    ensures forall name :: name in SdkNames(rules, leaves) ==>
      name == rules.sentinel || exists m :: m in Meanings(rules, leaves) && SdkName(rules, m) == name
    ensures rules.sentinel in SdkNames(rules, leaves)
  {
    if leaves != [] {
      var init, last := leaves[..|leaves| - 1], MeaningOf(rules, leaves[|leaves| - 1]);
      NamesOfMeanings(rules, init);
      assert last in Meanings(rules, leaves);
      forall m | m in Meanings(rules, init) ensures m in Meanings(rules, leaves) {}
    }
  }

  /** Telling tools apart name by name is coherence without repeats. */
  lemma {:induction false} AllNewMeansCoherent(rules: Rules, leaves: seq<Leaf>)
    ensures AllNew(rules, leaves) <==>
      |leaves| == |Meanings(rules, leaves)| && Coherent(rules, Meanings(rules, leaves), {})
  {
    if leaves != [] {
      var n := |leaves| - 1;
      var init, last := leaves[..n], MeaningOf(rules, leaves[n]);
      AllNewMeansCoherent(rules, init);
      NamesOfMeanings(rules, init);
      MeaningsCount(rules, init);
      if last !in Meanings(rules, init) {
        CoherentGrows(rules, Meanings(rules, init), last);
        NewNames(rules, init, last);
      } else {
        assert Identity(rules, last) in Identities(rules, init);
        assert Meanings(rules, leaves) == Meanings(rules, init);
      }
    }
  }

  lemma CoherentGrows(rules: Rules, before: set<Meaning>, last: Meaning)
    requires last !in before
    ensures Coherent(rules, before + {last}, {}) <==>
      && Coherent(rules, before, {})
      && (forall m :: m in before ==>
          Identity(rules, m) != Identity(rules, last) && SdkName(rules, m) != SdkName(rules, last))
      && SdkName(rules, last) != rules.sentinel
  {
    if Coherent(rules, before + {last}, {}) {
      assert forall m :: m in before ==> m in before + {last};
      assert last in before + {last};
    }
  }

  lemma NewNames(rules: Rules, init: seq<Leaf>, last: Meaning)
    ensures Identity(rules, last) !in Identities(rules, init) && SdkName(rules, last) !in SdkNames(rules, init) <==>
      && (forall m :: m in Meanings(rules, init) ==>
            Identity(rules, m) != Identity(rules, last) && SdkName(rules, m) != SdkName(rules, last))
      && SdkName(rules, last) != rules.sentinel
  {
    NamesOfMeanings(rules, init);
  }

  method ValidateFlattenedTool(rules: Rules, leaf: Leaf, identities: set<nat>, sdkNames: set<nat>)
    returns (ok: bool, identities': set<nat>, sdkNames': set<nat>)
    ensures ok <==>
      Identity(rules, MeaningOf(rules, leaf)) !in identities && SdkName(rules, MeaningOf(rules, leaf)) !in sdkNames
    ensures ok ==> identities' == identities + {Identity(rules, MeaningOf(rules, leaf))}
    ensures ok ==> sdkNames' == sdkNames + {SdkName(rules, MeaningOf(rules, leaf))}
  {
    var m := MeaningOf(rules, leaf);
    identities', sdkNames' := identities, sdkNames;
    if Identity(rules, m) in identities {
      return false, identities, sdkNames;
    }
    identities' := identities + {Identity(rules, m)};
    if SdkName(rules, m) in sdkNames {
      return false, identities', sdkNames;
    }
    sdkNames' := sdkNames + {SdkName(rules, m)};
    ok := true;
  }

  lemma AllNewPrefix(rules: Rules, a: seq<Leaf>, b: seq<Leaf>)
    requires AllNew(rules, a + b)
    ensures AllNew(rules, a)
  {
    if b == [] {
      assert a + b == a;
    } else {
      assert (a + b)[..|a + b| - 1] == a + b[..|b| - 1];
      AllNewPrefix(rules, a, b[..|b| - 1]);
    }
  }

  lemma LeavesAssociate(a: seq<Leaf>, b: seq<Leaf>, c: seq<Leaf>)
    ensures (a + b) + c == a + (b + c)
  {
  }

  lemma {:induction false} FlatAppend(a: seq<Tool>, b: seq<Tool>)
    ensures Flat(a + b) == Flat(a) + Flat(b)
  {
    if b == [] {
      assert a + b == a;
    } else {
      var init, last := b[..|b| - 1], Leaves(b[|b| - 1]);
      FlatAppend(a, init);
      assert (a + b)[..|a + b| - 1] == a + init;
      LeavesAssociate(Flat(a), Flat(init), last);
    }
  }

  lemma {:induction false} HeadersAppend(rules: Rules, a: seq<Tool>, b: seq<Tool>)
    ensures Headers(rules, a + b) == Headers(rules, a) + Headers(rules, b)
  {
    if b == [] {
      assert a + b == a;
    } else {
      HeadersAppend(rules, a, b[..|b| - 1]);
      assert (a + b)[..|a + b| - 1] == a + b[..|b| - 1];
    }
  }

  lemma {:induction false} HeadersMembers(rules: Rules, tools: seq<Tool>, h: Header)
    ensures h in Headers(rules, tools) <==>
      exists i :: 0 <= i < |tools| && tools[i].Namespace? && HeaderOf(rules, tools[i]) == h
  {
    if tools != [] {
      var n := |tools| - 1;
      HeadersMembers(rules, tools[..n], h);
      if h in Headers(rules, tools[..n]) {
        var i :| 0 <= i < n && tools[..n][i].Namespace? && HeaderOf(rules, tools[..n][i]) == h;
        assert tools[i] == tools[..n][i];
      }
      if i :| 0 <= i < |tools| && tools[i].Namespace? && HeaderOf(rules, tools[i]) == h {
        if i < n { assert tools[..n][i] == tools[i]; }
      }
    }
  }

  lemma FlatNext(tools: seq<Tool>, i: nat)
    requires i < |tools|
    ensures Flat(tools[..i + 1]) == Flat(tools[..i]) + Leaves(tools[i])
  {
    assert tools[..i + 1][..i] == tools[..i];
  }

  lemma NewInAllNewInPart(rules: Rules, tools: seq<Tool>, i: nat)
    requires i <= |tools| && AllNew(rules, Flat(tools))
    ensures AllNew(rules, Flat(tools[..i]))
  {
    assert tools == tools[..i] + tools[i..];
    FlatAppend(tools[..i], tools[i..]);
    AllNewPrefix(rules, Flat(tools[..i]), Flat(tools[i..]));
  }

  /** The validator's three checks together are validity. */
  lemma ChecksAreValidity(rules: Rules, tools: seq<Tool>)
    ensures Valid(rules, tools) <==> NoEmptyNamespace(tools) && DistinctNamespaces(tools) && AllNew(rules, Flat(tools))
  {
    AllNewMeansCoherent(rules, Flat(tools));
    if DistinctNamespaces(tools) { DistinctNamespacesHaveOneHeader(rules, tools); }
  }

  /** The validator's maps hold the names of these tools, each new when it came. */
  ghost predicate Known(rules: Rules, leaves: seq<Leaf>, identities: set<nat>, sdkNames: set<nat>) {
    AllNew(rules, leaves) && identities == Identities(rules, leaves) && sdkNames == SdkNames(rules, leaves)
  }

  /** The namespaces among the first `i` entries have children and different names, and these are the names. */
  ghost predicate NamespacesKnown(tools: seq<Tool>, i: nat, namespaces: set<Name>)
    requires i <= |tools|
  {
    && (forall j :: 0 <= j < i && tools[j].Namespace? ==> tools[j].children != [] && tools[j].name in namespaces)
    && (forall j, k :: 0 <= j < k < i && tools[j].Namespace? && tools[k].Namespace? ==> tools[j].name != tools[k].name)
    && forall n :: n in namespaces ==> exists j :: 0 <= j < i && tools[j].Namespace? && tools[j].name == n
  }

  /** Validation accepts exactly the valid catalogs. */
  method ValidateCatalog(rules: Rules, tools: seq<Tool>) returns (ok: bool)
    ensures ok <==> Valid(rules, tools)
  {
    hide Valid, AllNew, Flat, Leaves, NoEmptyNamespace, DistinctNamespaces, NamespacesKnown, Known;
    ChecksAreValidity(rules, tools);
    NothingKnown(rules, tools);
    var identities: set<nat>, sdkNames: set<nat>, namespaces: set<Name> := {}, {rules.sentinel}, {};
    for i := 0 to |tools|
      invariant Known(rules, Flat(tools[..i]), identities, sdkNames)
      invariant NamespacesKnown(tools, i, namespaces)
    {
      ok, namespaces := ValidateNamespace(tools, i, namespaces);
      if !ok {
        return false;
      }
      FlatNext(tools, i);
      ok, identities, sdkNames := ValidateLeaves(rules, Flat(tools[..i]), Leaves(tools[i]), identities, sdkNames);
      if !ok {
        if AllNew(rules, Flat(tools)) { NewInAllNewInPart(rules, tools, i + 1); }
        return false;
      }
    }
    assert tools[..|tools|] == tools;
    AllNamespacesKnown(tools, namespaces);
    KnownIsNew(rules, Flat(tools), identities, sdkNames);
    ok := true;
  }

  lemma NothingKnown(rules: Rules, tools: seq<Tool>)
    ensures Known(rules, Flat(tools[..0]), {}, {rules.sentinel}) && NamespacesKnown(tools, 0, {})
  {
  }

  lemma KnownIsNew(rules: Rules, leaves: seq<Leaf>, identities: set<nat>, sdkNames: set<nat>)
    requires Known(rules, leaves, identities, sdkNames)
    ensures AllNew(rules, leaves)
  {
  }

  method ValidateNamespace(tools: seq<Tool>, i: nat, namespaces: set<Name>) returns (ok: bool, namespaces': set<Name>)
    requires i < |tools| && NamespacesKnown(tools, i, namespaces)
    ensures ok ==> NamespacesKnown(tools, i + 1, namespaces')
    ensures !ok ==> !(NoEmptyNamespace(tools) && DistinctNamespaces(tools))
  {
    if !tools[i].Namespace? {
      return true, namespaces;
    }
    if |tools[i].children| == 0 || tools[i].name in namespaces {
      return false, namespaces;
    }
    return true, namespaces + {tools[i].name};
  }

  lemma AllNamespacesKnown(tools: seq<Tool>, namespaces: set<Name>)
    requires NamespacesKnown(tools, |tools|, namespaces)
    ensures NoEmptyNamespace(tools) && DistinctNamespaces(tools)
  {
  }

  method ValidateLeaves(rules: Rules, ghost before: seq<Leaf>, leaves: seq<Leaf>, identities: set<nat>,
                        sdkNames: set<nat>)
    returns (ok: bool, identities': set<nat>, sdkNames': set<nat>)
    requires Known(rules, before, identities, sdkNames)
    ensures ok <==> AllNew(rules, before + leaves)
    ensures ok ==> Known(rules, before + leaves, identities', sdkNames')
  {
    identities', sdkNames' := identities, sdkNames;
    assert before + leaves[..0] == before;
    for j := 0 to |leaves|
      invariant Known(rules, before + leaves[..j], identities', sdkNames')
    {
      ghost var known := before + leaves[..j];
      KnownGrows(rules, known, leaves[j], identities', sdkNames');
      assert before + leaves[..j + 1] == known + [leaves[j]];
      ok, identities', sdkNames' := ValidateFlattenedTool(rules, leaves[j], identities', sdkNames');
      if !ok {
        assert before + leaves == (known + [leaves[j]]) + leaves[j + 1..];
        if AllNew(rules, before + leaves) { AllNewPrefix(rules, known + [leaves[j]], leaves[j + 1..]); }
        return;
      }
    }
    assert leaves[..|leaves|] == leaves;
    ok := true;
  }

  lemma KnownGrows(rules: Rules, known: seq<Leaf>, leaf: Leaf, identities: set<nat>, sdkNames: set<nat>)
    requires Known(rules, known, identities, sdkNames)
    ensures var id, name := Identity(rules, MeaningOf(rules, leaf)), SdkName(rules, MeaningOf(rules, leaf));
            && (AllNew(rules, known + [leaf]) <==> id !in identities && name !in sdkNames)
            && (AllNew(rules, known + [leaf]) ==> Known(rules, known + [leaf], identities + {id}, sdkNames + {name}))
  {
    assert (known + [leaf])[..|known|] == known;
  }

  lemma DistinctNamespacesHaveOneHeader(rules: Rules, tools: seq<Tool>)
    requires DistinctNamespaces(tools)
    ensures forall g, h :: g in Headers(rules, tools) && h in Headers(rules, tools) && g.name == h.name ==> g == h
  {
    forall g, h | g in Headers(rules, tools) && h in Headers(rules, tools) && g.name == h.name ensures g == h {
      HeadersMembers(rules, tools, g);
      HeadersMembers(rules, tools, h);
      var i :| 0 <= i < |tools| && tools[i].Namespace? && HeaderOf(rules, tools[i]) == g;
      var j :| 0 <= j < |tools| && tools[j].Namespace? && HeaderOf(rules, tools[j]) == h;
      assert i == j;
    }
  }

  // ---- Merging -----------------------------------------------------------------

  function FirstWith(rules: Rules, leaves: seq<Leaf>, identity: nat): Option<Leaf> {
    if leaves == [] then None
    else
      var before := FirstWith(rules, leaves[..|leaves| - 1], identity);
      if before.Some? then before
      else if Identity(rules, MeaningOf(rules, leaves[|leaves| - 1])) == identity then Some(leaves[|leaves| - 1])
      else None
  }

  /** A tool already installed with the same meaning is kept; with another, it is a conflict. */
  function MergeSingle(rules: Rules, existing: seq<Tool>, leaf: Leaf): Option<seq<Tool>> {
    var m := MeaningOf(rules, leaf);
    var found := FirstWith(rules, Flat(existing), Identity(rules, m));
    if found.None? then Some(existing + [Single(leaf)])
    else if MeaningOf(rules, found.value) == m then Some(existing)
    else None
  }

  /** One child: installed already with the same meaning, or new. */
  function MergeChild(rules: Rules, namespace: Name, before: seq<Leaf>, leaf: Leaf): Option<seq<Leaf>> {
    var child := Placed(leaf, namespace);
    var found := FirstWith(rules, PlacedAll(before, namespace), Identity(rules, MeaningOf(rules, child)));
    if found.None? then Some(before + [child])
    else if MeaningOf(rules, found.value) == MeaningOf(rules, child) then Some(before)
    else None
  }

  function MergeChildren(rules: Rules, namespace: Name, base: seq<Leaf>, children: seq<Leaf>): Option<seq<Leaf>> {
    if children == [] then Some(base)
    else
      var before := MergeChildren(rules, namespace, base, children[..|children| - 1]);
      if before.None? then None else MergeChild(rules, namespace, before.value, children[|children| - 1])
  }

  function FindNamespace(tools: seq<Tool>, name: Name): (at: Option<nat>)
    ensures at.Some? ==> at.value < |tools| && tools[at.value].Namespace? && tools[at.value].name == name
    ensures at.None? ==> forall i :: 0 <= i < |tools| ==> !(tools[i].Namespace? && tools[i].name == name)
  {
    if tools == [] then None
    else
      var n := |tools| - 1;
      var before := FindNamespace(tools[..n], name);
      if before.Some? then before
      else if tools[n].Namespace? && tools[n].name == name then Some(n)
      else None
  }

  function MergeNamespace(rules: Rules, existing: seq<Tool>, name: Name, header: Spec,
                          children: seq<Leaf>): Option<seq<Tool>>
  {
    var at := FindNamespace(existing, name);
    if at.None? then Some(existing + [Namespace(name, header, PlacedAll(children, name))])
    else
      var installed := existing[at.value];
      if rules.canonical(installed.header) != rules.canonical(header) then None
      else
        var merged := MergeChildren(rules, name, installed.children, children);
        if merged.None? then None else Some(existing[at.value := installed.(children := merged.value)])
  }

  predicate Loadable(tool: Tool) {
    tool.Namespace? || tool.leaf.kind == Function
  }

  function MergeTool(rules: Rules, existing: seq<Tool>, incoming: Tool, loadedOnly: bool): Option<seq<Tool>> {
    if loadedOnly && !Loadable(incoming) then None
    else match incoming
      case Single(leaf) => MergeSingle(rules, existing, leaf)
      case Namespace(name, header, children) => MergeNamespace(rules, existing, name, header, children)
  }

  function MergeAll(rules: Rules, existing: seq<Tool>, incoming: seq<Tool>, loadedOnly: bool): Option<seq<Tool>> {
    if incoming == [] then Some(existing)
    else
      var before := MergeAll(rules, existing, incoming[..|incoming| - 1], loadedOnly);
      if before.None? then None else MergeTool(rules, before.value, incoming[|incoming| - 1], loadedOnly)
  }

  // ---- What merging does to the meaning -------------------------------------------

  function CatalogMeaning(rules: Rules, tools: seq<Tool>): set<Meaning> {
    Meanings(rules, Flat(tools))
  }

  /** Top-level tools are in no namespace, and namespaces are named. */
  ghost predicate Plain(tools: seq<Tool>) {
    forall i :: 0 <= i < |tools| ==>
      if tools[i].Single? then tools[i].leaf.namespace == UNNAMED else tools[i].name != UNNAMED
  }

  ghost predicate Inv(rules: Rules, tools: seq<Tool>) {
    Plain(tools) && NoRepeats(rules, tools)
  }

  lemma {:induction false} FirstWithFinds(rules: Rules, leaves: seq<Leaf>, identity: nat)
    ensures match FirstWith(rules, leaves, identity)
      case None => forall m :: m in Meanings(rules, leaves) ==> Identity(rules, m) != identity
      case Some(leaf) =>
        MeaningOf(rules, leaf) in Meanings(rules, leaves) && Identity(rules, MeaningOf(rules, leaf)) == identity
  {
    if leaves != [] { FirstWithFinds(rules, leaves[..|leaves| - 1], identity); }
  }

  lemma {:induction false} PlacedMeanings(rules: Rules, children: seq<Leaf>, namespace: Name)
    ensures forall m :: m in Meanings(rules, PlacedAll(children, namespace)) ==> m.namespace == namespace
  {
    if children != [] {
      var init := children[..|children| - 1];
      PlacedMeanings(rules, init, namespace);
      assert PlacedAll(children, namespace)[..|children| - 1] == PlacedAll(init, namespace);
    }
  }

  lemma PlacedNext(rules: Rules, base: seq<Leaf>, child: Leaf, namespace: Name)
    ensures PlacedAll(base + [child], namespace) == PlacedAll(base, namespace) + [Placed(child, namespace)]
    ensures Meanings(rules, PlacedAll(base + [child], namespace))
         == Meanings(rules, PlacedAll(base, namespace)) + {MeaningOf(rules, Placed(child, namespace))}
  {
    assert (base + [child])[..|base|] == base;
    var placed := PlacedAll(base, namespace) + [Placed(child, namespace)];
    assert placed[..|base|] == PlacedAll(base, namespace);
  }

  /** A namespace's children after merging mean both lists of children, none of them twice. */
  lemma {:induction false} MergedChildren(rules: Rules, namespace: Name, base: seq<Leaf>, children: seq<Leaf>)
    requires |base| == |Meanings(rules, PlacedAll(base, namespace))|
    ensures var out := MergeChildren(rules, namespace, base, children);
            out.Some? ==>
              && Meanings(rules, PlacedAll(out.value, namespace))
                 == Meanings(rules, PlacedAll(base, namespace)) + Meanings(rules, PlacedAll(children, namespace))
              && |out.value| == |Meanings(rules, PlacedAll(out.value, namespace))|
              && |out.value| >= |base|
  {
    if children != [] && MergeChildren(rules, namespace, base, children).Some? {
      var n := |children| - 1;
      MergedChildren(rules, namespace, base, children[..n]);
      var before := MergeChildren(rules, namespace, base, children[..n]).value;
      assert MergeChildren(rules, namespace, base, children) == MergeChild(rules, namespace, before, children[n]);
      MergedChild(rules, namespace, before, children[n]);
      PlacedLast(rules, children, namespace);
      UnionsAssociate(Meanings(rules, PlacedAll(base, namespace)), Meanings(rules, PlacedAll(children[..n], namespace)),
                      {MeaningOf(rules, Placed(children[n], namespace))});
    }
  }

  lemma PlacedLast(rules: Rules, children: seq<Leaf>, namespace: Name)
    requires children != []
    ensures var n := |children| - 1;
            Meanings(rules, PlacedAll(children, namespace))
              == Meanings(rules, PlacedAll(children[..n], namespace))
                + {MeaningOf(rules, Placed(children[n], namespace))}
  {
    var n := |children| - 1;
    assert children == children[..n] + [children[n]];
    PlacedNext(rules, children[..n], children[n], namespace);
  }

  lemma UnionsAssociate<T>(a: set<T>, b: set<T>, c: set<T>)
    ensures (a + b) + c == a + (b + c)
  {
  }

  lemma MergedChild(rules: Rules, namespace: Name, before: seq<Leaf>, leaf: Leaf)
    requires |before| == |Meanings(rules, PlacedAll(before, namespace))|
    ensures var out := MergeChild(rules, namespace, before, leaf);
            out.Some? ==>
              && Meanings(rules, PlacedAll(out.value, namespace))
                 == Meanings(rules, PlacedAll(before, namespace)) + {MeaningOf(rules, Placed(leaf, namespace))}
              && |out.value| == |Meanings(rules, PlacedAll(out.value, namespace))|
              && |out.value| >= |before|
  {
    var child := Placed(leaf, namespace);
    FirstWithFinds(rules, PlacedAll(before, namespace), Identity(rules, MeaningOf(rules, child)));
    PlacedNext(rules, before, child, namespace);
    assert Placed(child, namespace) == child;
  }

  lemma CoherentChildMerges(rules: Rules, namespace: Name, before: seq<Leaf>, leaf: Leaf)
    requires Coherent(rules,
                      Meanings(rules, PlacedAll(before, namespace)) + {MeaningOf(rules, Placed(leaf, namespace))}, {})
    ensures MergeChild(rules, namespace, before, leaf).Some?
  {
    FirstWithFinds(rules, PlacedAll(before, namespace), Identity(rules, MeaningOf(rules, Placed(leaf, namespace))));
  }

  /** If nothing in the two lists contradicts, their merge succeeds. */
  lemma {:induction false} CoherentChildrenMerge(rules: Rules, namespace: Name, base: seq<Leaf>, children: seq<Leaf>)
    requires |base| == |Meanings(rules, PlacedAll(base, namespace))|
    requires Coherent(rules,
                      Meanings(rules, PlacedAll(base, namespace)) + Meanings(rules, PlacedAll(children, namespace)), {})
    ensures MergeChildren(rules, namespace, base, children).Some?
  {
    if children != [] {
      var n := |children| - 1;
      PlacedLast(rules, children, namespace);
      CoherentPrefixes(rules, Meanings(rules, PlacedAll(base, namespace)),
                       Meanings(rules, PlacedAll(children[..n], namespace)),
                         {MeaningOf(rules, Placed(children[n], namespace))}, {}, {}, {});
      CoherentChildrenMerge(rules, namespace, base, children[..n]);
      MergedChildren(rules, namespace, base, children[..n]);
      CoherentChildMerges(rules, namespace, MergeChildren(rules, namespace, base, children[..n]).value, children[n]);
    }
  }

  lemma FlatSplit(tools: seq<Tool>, i: nat)
    requires i < |tools|
    ensures Flat(tools) == Flat(tools[..i]) + Leaves(tools[i]) + Flat(tools[i + 1..])
  {
    assert tools == tools[..i + 1] + tools[i + 1..];
    FlatAppend(tools[..i + 1], tools[i + 1..]);
    FlatNext(tools, i);
  }

  lemma MeaningSplit(rules: Rules, tools: seq<Tool>, i: nat)
    requires i < |tools|
    ensures CatalogMeaning(rules, tools)
         == CatalogMeaning(rules, tools[..i]) + Meanings(rules, Leaves(tools[i]))
           + CatalogMeaning(rules, tools[i + 1..])
  {
    FlatSplit(tools, i);
    MeaningsAppend(rules, Flat(tools[..i]) + Leaves(tools[i]), Flat(tools[i + 1..]));
    MeaningsAppend(rules, Flat(tools[..i]), Leaves(tools[i]));
  }

  lemma HeaderSplit(rules: Rules, tools: seq<Tool>, i: nat)
    requires i < |tools|
    ensures Headers(rules, tools)
         == Headers(rules, tools[..i]) + Headers(rules, [tools[i]]) + Headers(rules, tools[i + 1..])
  {
    assert tools == tools[..i + 1] + tools[i + 1..];
    assert tools[..i + 1] == tools[..i] + [tools[i]];
    HeadersAppend(rules, tools[..i + 1], tools[i + 1..]);
    HeadersAppend(rules, tools[..i], [tools[i]]);
  }

  lemma SingleMeaning(rules: Rules, leaf: Leaf)
    ensures Meanings(rules, [leaf]) == {MeaningOf(rules, leaf)}
  {
    assert [leaf][..0] == [];
  }

  lemma {:induction false} MeaningComesFrom(rules: Rules, tools: seq<Tool>, m: Meaning)
    requires m in CatalogMeaning(rules, tools)
    ensures exists i :: 0 <= i < |tools| && m in Meanings(rules, Leaves(tools[i]))
  {
    var n := |tools| - 1;
    assert tools[..n] + [tools[n]] == tools;
    MeaningsAppend(rules, Flat(tools[..n]), Leaves(tools[n]));
    if m in CatalogMeaning(rules, tools[..n]) {
      MeaningComesFrom(rules, tools[..n], m);
      var i :| 0 <= i < n && m in Meanings(rules, Leaves(tools[..n][i]));
      assert tools[i] == tools[..n][i];
    }
  }

  /** In a plain catalog a tool's namespace says where it is listed. */
  lemma WhereListed(rules: Rules, tools: seq<Tool>, m: Meaning)
    requires Plain(tools) && m in CatalogMeaning(rules, tools)
    ensures m.namespace == UNNAMED || exists i ::
      0 <= i < |tools| && tools[i].Namespace? && tools[i].name == m.namespace
  {
    MeaningComesFrom(rules, tools, m);
    var i :| 0 <= i < |tools| && m in Meanings(rules, Leaves(tools[i]));
    if tools[i].Namespace? {
      PlacedMeanings(rules, tools[i].children, tools[i].name);
    } else {
      SingleMeaning(rules, tools[i].leaf);
    }
  }

  /** `out` is `existing` with `tool` merged in: it means both, and repeats nothing. */
  ghost predicate MergedInto(rules: Rules, existing: seq<Tool>, tool: Tool, out: seq<Tool>) {
    && Inv(rules, out)
    && CatalogMeaning(rules, out) == CatalogMeaning(rules, existing) + Meanings(rules, Leaves(tool))
    && Headers(rules, out) == Headers(rules, existing) + Headers(rules, [tool])
    && (NoEmptyNamespace(existing) ==> NoEmptyNamespace(out))
  }

  lemma AppendedMeaning(rules: Rules, existing: seq<Tool>, tool: Tool)
    ensures CatalogMeaning(rules, existing + [tool]) == CatalogMeaning(rules, existing) + Meanings(rules, Leaves(tool))
    ensures |Flat(existing + [tool])| == |Flat(existing)| + |Leaves(tool)|
    ensures Headers(rules, existing + [tool]) == Headers(rules, existing) + Headers(rules, [tool])
  {
    var n := |existing|;
    FlatNext(existing + [tool], n);
    assert (existing + [tool])[..n] == existing && (existing + [tool])[..n + 1] == existing + [tool];
    MeaningsAppend(rules, Flat(existing), Leaves(tool));
    HeadersAppend(rules, existing, [tool]);
  }

  lemma DisjointSizes(a: set<Meaning>, b: set<Meaning>)
    requires a !! b
    ensures |a + b| == |a| + |b|
  {
  }

  lemma MergedSingle(rules: Rules, existing: seq<Tool>, leaf: Leaf)
    requires Inv(rules, existing) && leaf.namespace == UNNAMED && MergeSingle(rules, existing, leaf).Some?
    ensures MergedInto(rules, existing, Single(leaf), MergeSingle(rules, existing, leaf).value)
  {
    var m := MeaningOf(rules, leaf);
    FirstWithFinds(rules, Flat(existing), Identity(rules, m));
    SingleMeaning(rules, leaf);
    NoHeader(rules, Single(leaf));
    if FirstWith(rules, Flat(existing), Identity(rules, m)).None? {
      AppendedMeaning(rules, existing, Single(leaf));
      DisjointSizes(CatalogMeaning(rules, existing), {m});
    } else {
      assert CatalogMeaning(rules, existing) + {m} == CatalogMeaning(rules, existing);
    }
  }

  lemma NoHeader(rules: Rules, tool: Tool)
    ensures Headers(rules, [tool]) == if tool.Namespace? then {HeaderOf(rules, tool)} else {}
  {
    assert [tool][..0] == [];
  }

  /** No tool of a namespace is listed in a catalog without that namespace. */
  lemma NothingOfNamespace(rules: Rules, tools: seq<Tool>, name: Name)
    requires Plain(tools) && name != UNNAMED
    requires forall i :: 0 <= i < |tools| ==> !(tools[i].Namespace? && tools[i].name == name)
    ensures forall m :: m in CatalogMeaning(rules, tools) ==> m.namespace != name
  {
    forall m | m in CatalogMeaning(rules, tools) ensures m.namespace != name {
      WhereListed(rules, tools, m);
    }
  }

  lemma MergedNewNamespace(rules: Rules, existing: seq<Tool>, name: Name, header: Spec, children: seq<Leaf>)
    requires Inv(rules, existing) && name != UNNAMED && FindNamespace(existing, name).None? && children != []
    requires |children| == |Meanings(rules, PlacedAll(children, name))|
    ensures MergedInto(rules, existing, Namespace(name, header, children),
                       existing + [Namespace(name, header, PlacedAll(children, name))])
  {
    var tool := Namespace(name, header, PlacedAll(children, name));
    PlacedTwice(children, name);
    AppendedMeaning(rules, existing, tool);
    NothingOfNamespace(rules, existing, name);
    PlacedMeanings(rules, children, name);
    assert CatalogMeaning(rules, existing) !! Meanings(rules, Leaves(tool));
    DisjointSizes(CatalogMeaning(rules, existing), Meanings(rules, Leaves(tool)));
    NoHeader(rules, tool);
    NoHeader(rules, Namespace(name, header, children));
    AppendedShape(existing, tool);
  }

  lemma AppendedShape(existing: seq<Tool>, tool: Tool)
    requires Plain(existing) && DistinctNamespaces(existing) && tool.Namespace? && tool.name != UNNAMED
    requires tool.children != [] && FindNamespace(existing, tool.name).None?
    ensures Plain(existing + [tool]) && DistinctNamespaces(existing + [tool])
    ensures NoEmptyNamespace(existing) ==> NoEmptyNamespace(existing + [tool])
  {
  }

  lemma {:induction false} PlacedTwice(children: seq<Leaf>, name: Name)
    ensures PlacedAll(PlacedAll(children, name), name) == PlacedAll(children, name)
  {
  }

  lemma SizeOfUnion(a: set<Meaning>, b: set<Meaning>)
    ensures |a + b| <= |a| + |b|
  {
    assert |a + b| == |a| + |b| - |a * b|;
  }

  /** Three sets as large together as they can be repeat nothing, each by itself and the first and last together. */
  lemma ThreeParts(a: set<Meaning>, b: set<Meaning>, c: set<Meaning>, na: nat, nb: nat, nc: nat)
    requires |a| <= na && |b| <= nb && |c| <= nc && |a + b + c| == na + nb + nc
    ensures |a + c| == na + nc && |b| == nb
  {
    assert a + b + c == (a + c) + b;
    SizeOfUnion(a + c, b);
    SizeOfUnion(a, c);
  }

  /** Apart from the entry at `i`, the catalog repeats nothing. */
  lemma RestCounts(rules: Rules, tools: seq<Tool>, i: nat)
    requires |Flat(tools)| == |CatalogMeaning(rules, tools)| && i < |tools|
    ensures |CatalogMeaning(rules, tools[..i]) + CatalogMeaning(rules, tools[i + 1..])|
         == |Flat(tools[..i])| + |Flat(tools[i + 1..])|
    ensures |Leaves(tools[i])| == |Meanings(rules, Leaves(tools[i]))|
  {
    FlatSplit(tools, i);
    MeaningSplit(rules, tools, i);
    MeaningsCount(rules, Flat(tools[..i]));
    MeaningsCount(rules, Leaves(tools[i]));
    MeaningsCount(rules, Flat(tools[i + 1..]));
    ThreeParts(CatalogMeaning(rules, tools[..i]), Meanings(rules, Leaves(tools[i])),
               CatalogMeaning(rules, tools[i + 1..]), |Flat(tools[..i])|, |Leaves(tools[i])|, |Flat(tools[i + 1..])|);
  }

  /** Apart from the entry at `i`, the catalog lists nothing of that entry's namespace. */
  lemma RestElsewhere(rules: Rules, tools: seq<Tool>, i: nat)
    requires Plain(tools) && DistinctNamespaces(tools) && i < |tools| && tools[i].Namespace?
    ensures forall m :: m in CatalogMeaning(rules, tools[..i]) + CatalogMeaning(rules, tools[i + 1..]) ==>
      m.namespace != tools[i].name
  {
    assert forall j :: 0 <= j < i ==> tools[..i][j] == tools[j];
    var behind := tools[i + 1..];
    assert forall j :: 0 <= j < |behind| ==> behind[j] == tools[i + 1 + j];
    NothingOfNamespace(rules, tools[..i], tools[i].name);
    NothingOfNamespace(rules, tools[i + 1..], tools[i].name);
  }

  lemma GrowsInTheMiddle(a: set<Meaning>, b: set<Meaning>, c: set<Meaning>, more: set<Meaning>)
    ensures a + (b + more) + c == (a + b + c) + more
  {
  }

  lemma MergedOldNamespace(rules: Rules, existing: seq<Tool>, i: nat, header: Spec, children: seq<Leaf>)
    requires Inv(rules, existing) && i < |existing| && existing[i].Namespace?
    requires rules.canonical(existing[i].header) == rules.canonical(header)
    requires MergeChildren(rules, existing[i].name, existing[i].children, children).Some?
    ensures var merged := MergeChildren(rules, existing[i].name, existing[i].children, children).value;
            MergedInto(rules, existing, Namespace(existing[i].name, header, children),
                       existing[i := existing[i].(children := merged)])
  {
    var name, tool := existing[i].name, Namespace(existing[i].name, header, children);
    var merged := MergeChildren(rules, name, existing[i].children, children).value;
    var out := existing[i := existing[i].(children := merged)];
    assert out[..i] == existing[..i] && out[i + 1..] == existing[i + 1..];
    RestCounts(rules, existing, i);
    MergedChildren(rules, name, existing[i].children, children);
    ReplacedMeaning(rules, existing, out, i, Meanings(rules, Leaves(tool)));
    ReplacedCounts(rules, existing, out, i);
    ReplacedShape(existing, out, i);
    SameHeaders(rules, existing, out, i, tool);
  }

  lemma ReplacedMeaning(rules: Rules, existing: seq<Tool>, out: seq<Tool>, i: nat, more: set<Meaning>)
    requires i < |existing| == |out| && out[..i] == existing[..i] && out[i + 1..] == existing[i + 1..]
    requires Meanings(rules, Leaves(out[i])) == Meanings(rules, Leaves(existing[i])) + more
    ensures CatalogMeaning(rules, out) == CatalogMeaning(rules, existing) + more
  {
    MeaningSplit(rules, existing, i);
    MeaningSplit(rules, out, i);
    GrowsInTheMiddle(CatalogMeaning(rules, existing[..i]), Meanings(rules, Leaves(existing[i])),
                     CatalogMeaning(rules, existing[i + 1..]), more);
  }

  lemma ReplacedShape(existing: seq<Tool>, out: seq<Tool>, i: nat)
    requires Plain(existing) && DistinctNamespaces(existing)
    requires i < |existing| == |out| && existing[i].Namespace? && out[i].Namespace? && out[i].name == existing[i].name
    requires |out[i].children| >= |existing[i].children|
    requires forall j :: 0 <= j < |out| && j != i ==> out[j] == existing[j]
    ensures Plain(out) && DistinctNamespaces(out) && (NoEmptyNamespace(existing) ==> NoEmptyNamespace(out))
  {
  }

  lemma ReplacedCounts(rules: Rules, existing: seq<Tool>, out: seq<Tool>, i: nat)
    requires Inv(rules, existing) && i < |existing| == |out| && out[..i] == existing[..i]
      && out[i + 1..] == existing[i + 1..]
    requires existing[i].Namespace? && out[i].Namespace? && out[i].name == existing[i].name
    requires |Leaves(out[i])| == |Meanings(rules, Leaves(out[i]))|
    ensures |Flat(out)| == |CatalogMeaning(rules, out)|
  {
    RestCounts(rules, existing, i);
    RestElsewhere(rules, existing, i);
    FlatSplit(out, i);
    MeaningSplit(rules, out, i);
    PlacedMeanings(rules, out[i].children, out[i].name);
    var rest, own := CatalogMeaning(rules, out[..i]) + CatalogMeaning(rules, out[i + 1..]),
                     Meanings(rules, Leaves(out[i]));
    assert CatalogMeaning(rules, out) == rest + own;
    DisjointSizes(rest, own);
  }

  lemma SameHeaders(rules: Rules, existing: seq<Tool>, out: seq<Tool>, i: nat, tool: Tool)
    requires i < |existing| == |out| && out[..i] == existing[..i] && out[i + 1..] == existing[i + 1..]
    requires existing[i].Namespace? && out[i].Namespace? && tool.Namespace?
    requires HeaderOf(rules, existing[i]) == HeaderOf(rules, out[i]) == HeaderOf(rules, tool)
    ensures Headers(rules, out) == Headers(rules, existing) + Headers(rules, [tool])
  {
    HeaderSplit(rules, existing, i);
    HeaderSplit(rules, out, i);
    NoHeader(rules, existing[i]);
    NoHeader(rules, out[i]);
    NoHeader(rules, tool);
  }

  ghost predicate EntriesDistinct(rules: Rules, tools: seq<Tool>) {
    forall i :: 0 <= i < |tools| ==> |Leaves(tools[i])| == |Meanings(rules, Leaves(tools[i]))|
  }

  lemma NoRepeatsInEntries(rules: Rules, tools: seq<Tool>)
    requires NoRepeats(rules, tools)
    ensures EntriesDistinct(rules, tools)
  {
    forall i | 0 <= i < |tools| ensures |Leaves(tools[i])| == |Meanings(rules, Leaves(tools[i]))| {
      RestCounts(rules, tools, i);
    }
  }

  /** A tool fit to be merged: plain, not empty, nothing twice. */
  ghost predicate Mergeable(rules: Rules, tool: Tool) {
    && (if tool.Single? then tool.leaf.namespace == UNNAMED else tool.name != UNNAMED && tool.children != [])
    && |Leaves(tool)| == |Meanings(rules, Leaves(tool))|
  }

  lemma MergedTool(rules: Rules, existing: seq<Tool>, tool: Tool, loadedOnly: bool)
    requires Inv(rules, existing) && Mergeable(rules, tool) && MergeTool(rules, existing, tool, loadedOnly).Some?
    ensures MergedInto(rules, existing, tool, MergeTool(rules, existing, tool, loadedOnly).value)
  {
    match tool
    case Single(leaf) =>
      MergedSingle(rules, existing, leaf);
    case Namespace(name, header, children) =>
      var at := FindNamespace(existing, name);
      if at.None? {
        MergedNewNamespace(rules, existing, name, header, children);
      } else {
        MergedOldNamespace(rules, existing, at.value, header, children);
      }
  }

  /** A merged catalog means its old tools and the incoming ones, and repeats nothing. */
  lemma {:induction false} MergedAll(rules: Rules, existing: seq<Tool>, incoming: seq<Tool>, loadedOnly: bool)
    requires Inv(rules, existing) && forall i :: 0 <= i < |incoming| ==> Mergeable(rules, incoming[i])
    ensures var out := MergeAll(rules, existing, incoming, loadedOnly);
            out.Some? ==>
              && Inv(rules, out.value)
              && CatalogMeaning(rules, out.value) == CatalogMeaning(rules, existing) + CatalogMeaning(rules, incoming)
              && Headers(rules, out.value) == Headers(rules, existing) + Headers(rules, incoming)
              && (NoEmptyNamespace(existing) ==> NoEmptyNamespace(out.value))
  {
    hide Inv, Mergeable, MergeTool, CatalogMeaning, Headers, Meanings, NoEmptyNamespace;
    NothingMeant(rules, CatalogMeaning(rules, existing), Headers(rules, existing));
    if incoming != [] && MergeAll(rules, existing, incoming, loadedOnly).Some? {
      var n := |incoming| - 1;
      var before := MergeAll(rules, existing, incoming[..n], loadedOnly).value;
      MergedAll(rules, existing, incoming[..n], loadedOnly);
      MergedTool(rules, before, incoming[n], loadedOnly);
      LastEntry(rules, incoming);
      UnionsAssociate(CatalogMeaning(rules, existing), CatalogMeaning(rules, incoming[..n]),
                      Meanings(rules, Leaves(incoming[n])));
      UnionsAssociate(Headers(rules, existing), Headers(rules, incoming[..n]), Headers(rules, [incoming[n]]));
    }
  }

  lemma NothingMeant(rules: Rules, meanings: set<Meaning>, headers: set<Header>)
    ensures meanings + CatalogMeaning(rules, []) == meanings && headers + Headers(rules, []) == headers
  {
  }

  lemma LastEntry(rules: Rules, tools: seq<Tool>)
    requires tools != []
    ensures var n := |tools| - 1;
            && CatalogMeaning(rules, tools) == CatalogMeaning(rules, tools[..n]) + Meanings(rules, Leaves(tools[n]))
            && Headers(rules, tools) == Headers(rules, tools[..n]) + Headers(rules, [tools[n]])
  {
    var n := |tools| - 1;
    assert tools == tools[..n] + [tools[n]];
    AppendedMeaning(rules, tools[..n], tools[n]);
  }

  // ---- When merging succeeds -------------------------------------------------------

  lemma CoherentParts(rules: Rules, tools: set<Meaning>, headers: set<Header>, some: set<Meaning>, few: set<Header>)
    requires Coherent(rules, tools, headers) && some <= tools && few <= headers
    ensures Coherent(rules, some, few)
  {
  }

  lemma CoherentPrefixes(rules: Rules, a: set<Meaning>, b: set<Meaning>, c: set<Meaning>,
                         g: set<Header>, h: set<Header>, k: set<Header>)
    requires Coherent(rules, a + (b + c), g + (h + k))
    ensures Coherent(rules, a + b, g + h) && Coherent(rules, (a + b) + c, (g + h) + k)
  {
    assert (a + b) + c == a + (b + c) && (g + h) + k == g + (h + k);
    CoherentParts(rules, a + (b + c), g + (h + k), a + b, g + h);
  }

  lemma CoherentSingleMerges(rules: Rules, existing: seq<Tool>, leaf: Leaf)
    requires Coherent(rules, CatalogMeaning(rules, existing) + {MeaningOf(rules, leaf)}, {})
    ensures MergeSingle(rules, existing, leaf).Some?
  {
    FirstWithFinds(rules, Flat(existing), Identity(rules, MeaningOf(rules, leaf)));
  }

  lemma CoherentNamespaceMerges(rules: Rules, existing: seq<Tool>, i: nat, header: Spec, children: seq<Leaf>)
    requires Inv(rules, existing) && i < |existing| && existing[i].Namespace?
    requires Coherent(rules, CatalogMeaning(rules, existing) + Meanings(rules, PlacedAll(children, existing[i].name)),
                      Headers(rules, existing) + {Header(existing[i].name, rules.canonical(header))})
    ensures rules.canonical(existing[i].header) == rules.canonical(header)
    ensures MergeChildren(rules, existing[i].name, existing[i].children, children).Some?
  {
    HeadersMembers(rules, existing, HeaderOf(rules, existing[i]));
    assert HeaderOf(rules, existing[i]) == Header(existing[i].name, rules.canonical(header));
    RestCounts(rules, existing, i);
    MeaningSplit(rules, existing, i);
    var own, more := Meanings(rules, Leaves(existing[i])), Meanings(rules, PlacedAll(children, existing[i].name));
    assert own <= CatalogMeaning(rules, existing);
    CoherentParts(rules, CatalogMeaning(rules, existing) + more,
                  Headers(rules, existing) + {Header(existing[i].name, rules.canonical(header))}, own + more, {});
    CoherentChildrenMerge(rules, existing[i].name, existing[i].children, children);
  }

  lemma CoherentToolMerges(rules: Rules, existing: seq<Tool>, tool: Tool, loadedOnly: bool)
    requires Inv(rules, existing) && Mergeable(rules, tool) && (loadedOnly ==> Loadable(tool))
    requires Coherent(rules, CatalogMeaning(rules, existing) + Meanings(rules, Leaves(tool)),
                      Headers(rules, existing) + Headers(rules, [tool]))
    ensures MergeTool(rules, existing, tool, loadedOnly).Some?
  {
    NoHeader(rules, tool);
    match tool
    case Single(leaf) =>
      SingleMeaning(rules, leaf);
      CoherentSingleMerges(rules, existing, leaf);
    case Namespace(name, header, children) =>
      var at := FindNamespace(existing, name);
      if at.Some? { CoherentNamespaceMerges(rules, existing, at.value, header, children); }
  }

  lemma {:induction false} CoherentMerges(rules: Rules, existing: seq<Tool>, incoming: seq<Tool>, loadedOnly: bool)
    requires Inv(rules, existing) && forall i :: 0 <= i < |incoming| ==> Mergeable(rules, incoming[i])
    requires loadedOnly ==> forall i :: 0 <= i < |incoming| ==> Loadable(incoming[i])
    requires Coherent(rules, CatalogMeaning(rules, existing) + CatalogMeaning(rules, incoming),
                      Headers(rules, existing) + Headers(rules, incoming))
    ensures MergeAll(rules, existing, incoming, loadedOnly).Some?
  {
    hide Coherent, MergeTool, Inv, Mergeable, CatalogMeaning, Headers, Meanings;
    if incoming != [] {
      var n := |incoming| - 1;
      LastEntry(rules, incoming);
      CoherentPrefixes(rules, CatalogMeaning(rules, existing), CatalogMeaning(rules, incoming[..n]),
                       Meanings(rules, Leaves(incoming[n])), Headers(rules, existing), Headers(rules, incoming[..n]),
                       Headers(rules, [incoming[n]]));
      CoherentMerges(rules, existing, incoming[..n], loadedOnly);
      MergedAll(rules, existing, incoming[..n], loadedOnly);
      CoherentToolMerges(rules, MergeAll(rules, existing, incoming[..n], loadedOnly).value, incoming[n], loadedOnly);
    }
  }

  lemma RefusedToolIsLoadable(rules: Rules, existing: seq<Tool>, incoming: seq<Tool>)
    requires MergeAll(rules, existing, incoming, true).Some?
    ensures forall i :: 0 <= i < |incoming| ==> Loadable(incoming[i])
  {
    hide MergeAll, Loadable;
    forall i | 0 <= i < |incoming| ensures Loadable(incoming[i]) {
      MergedToolIsLoadable(rules, existing, incoming, i);
    }
  }

  lemma {:induction false} MergedToolIsLoadable(rules: Rules, existing: seq<Tool>, incoming: seq<Tool>, i: nat)
    requires MergeAll(rules, existing, incoming, true).Some? && i < |incoming|
    ensures Loadable(incoming[i])
    decreases |incoming|
  {
    hide MergeAll, MergeTool, Loadable;
    var n := |incoming| - 1;
    LastMerges(rules, existing, incoming);
    if i == n {
      RefusedTool(rules, MergeAll(rules, existing, incoming[..n], true).value, incoming[n]);
    } else {
      MergedToolIsLoadable(rules, existing, incoming[..n], i);
    }
  }

  lemma LastMerges(rules: Rules, existing: seq<Tool>, incoming: seq<Tool>)
    requires incoming != [] && MergeAll(rules, existing, incoming, true).Some?
    ensures var before := MergeAll(rules, existing, incoming[..|incoming| - 1], true);
            before.Some? && MergeTool(rules, before.value, incoming[|incoming| - 1], true).Some?
  {
    hide MergeTool;
  }

  lemma RefusedTool(rules: Rules, existing: seq<Tool>, tool: Tool)
    requires MergeTool(rules, existing, tool, true).Some?
    ensures Loadable(tool)
  {
  }

  // ---- The catalog operations --------------------------------------------------------

  /** Children carry their namespace's name. */
  function Canonicalized(tools: seq<Tool>): (out: seq<Tool>)
    ensures |out| == |tools| && forall i :: 0 <= i < |tools| ==> out[i] == CanonicalTool(tools[i])
  {
    if tools == [] then [] else Canonicalized(tools[..|tools| - 1]) + [CanonicalTool(tools[|tools| - 1])]
  }

  function CanonicalTool(tool: Tool): Tool {
    if tool.Single? then tool else tool.(children := PlacedAll(tool.children, tool.name))
  }

  function FlattenedToolCount(tools: seq<Tool>): nat {
    if tools == [] then 0
    else FlattenedToolCount(tools[..|tools| - 1]) + |Leaves(tools[|tools| - 1])|
  }

  lemma {:induction false} CountIsFlat(tools: seq<Tool>)
    ensures FlattenedToolCount(tools) == |Flat(tools)|
  {
    if tools != [] { CountIsFlat(tools[..|tools| - 1]); }
  }

  predicate WithinInstalledLimits(rules: Rules, tools: seq<Tool>) {
    FlattenedToolCount(tools) <= MAX_INSTALLED_TOOL_COUNT && rules.fitsStored(tools)
  }

  /** Merging: none if anything is refused, and then the catalog is as it was. */
  ghost function MergeTools(rules: Rules, installed: seq<Tool>, tools: seq<Tool>, loadedOnly: bool): Option<seq<Tool>> {
    var incoming := Canonicalized(tools);
    if !Valid(rules, incoming) then None
    else
      var merged := MergeAll(rules, installed, incoming, loadedOnly);
      if merged.None? || !Valid(rules, merged.value) || !WithinInstalledLimits(rules, merged.value) then None
      else merged
  }

  lemma ValidIsMergeable(rules: Rules, tools: seq<Tool>)
    requires Valid(rules, tools) && Plain(tools)
    ensures forall i :: 0 <= i < |tools| ==> Mergeable(rules, tools[i])
  {
    NoRepeatsInEntries(rules, tools);
  }

  /** A merged catalog is valid, and means the installed tools and the merged ones: nothing else, nothing lost. */
  lemma MergeKeepsBoth(rules: Rules, installed: seq<Tool>, tools: seq<Tool>, loadedOnly: bool)
    requires Valid(rules, installed) && Plain(installed) && Plain(Canonicalized(tools))
    requires MergeTools(rules, installed, tools, loadedOnly).Some?
    ensures var merged := MergeTools(rules, installed, tools, loadedOnly).value;
            && Valid(rules, merged) && Plain(merged)
            && CatalogMeaning(rules, merged)
              == CatalogMeaning(rules, installed) + CatalogMeaning(rules, Canonicalized(tools))
            && Headers(rules, merged) == Headers(rules, installed) + Headers(rules, Canonicalized(tools))
  {
    ValidIsMergeable(rules, Canonicalized(tools));
    MergedAll(rules, installed, Canonicalized(tools), loadedOnly);
  }

  /** Two catalogs tell all their tools and namespaces apart, where they are not the same. */
  ghost predicate CoherentTogether(rules: Rules, a: seq<Tool>, b: seq<Tool>) {
    Coherent(rules, CatalogMeaning(rules, a) + CatalogMeaning(rules, b), Headers(rules, a) + Headers(rules, b))
  }

  predicate AllLoadable(tools: seq<Tool>) {
    forall i :: 0 <= i < |tools| ==> Loadable(tools[i])
  }

  lemma MergedIsValidExactlyIf(rules: Rules, installed: seq<Tool>, incoming: seq<Tool>, loadedOnly: bool)
    requires Valid(rules, installed) && Plain(installed) && Valid(rules, incoming) && Plain(incoming)
    requires MergeAll(rules, installed, incoming, loadedOnly).Some?
    ensures Valid(rules, MergeAll(rules, installed, incoming, loadedOnly).value) <==>
      CoherentTogether(rules, installed, incoming)
  {
    ValidIsMergeable(rules, incoming);
    MergedAll(rules, installed, incoming, loadedOnly);
  }

  /**
   Merging succeeds exactly if the incoming tools are valid (and loadable, where that
   is asked), the two sets of tools are coherent together, and the result fits.
   */
  lemma MergeSucceedsExactlyIf(rules: Rules, installed: seq<Tool>, tools: seq<Tool>, loadedOnly: bool)
    requires Valid(rules, installed) && Plain(installed) && Plain(Canonicalized(tools))
    ensures var incoming := Canonicalized(tools);
            MergeTools(rules, installed, tools, loadedOnly).Some? <==>
              && Valid(rules, incoming)
              && (loadedOnly ==> forall i :: 0 <= i < |incoming| ==>
                    incoming[i].Namespace? || incoming[i].leaf.kind == Function)
              && CoherentTogether(rules, installed, incoming)
              && match MergeAll(rules, installed, incoming, loadedOnly)
                 case None => false
                 case Some(merged) => FlattenedToolCount(merged) <= 512 && rules.fitsStored(merged)
  {
    hide Valid, MergeAll, CoherentTogether, Canonicalized, FlattenedToolCount;
    var incoming := Canonicalized(tools);
    if Valid(rules, incoming) && MergeAll(rules, installed, incoming, loadedOnly).Some? {
      MergedIsValidExactlyIf(rules, installed, incoming, loadedOnly);
      if loadedOnly { RefusedToolIsLoadable(rules, installed, incoming); }
    }
  }

  /** Coherent and loadable tools are never refused while they are merged, so only the limits remain. */
  lemma OnlyLimitsRefuse(rules: Rules, installed: seq<Tool>, tools: seq<Tool>, loadedOnly: bool)
    requires Valid(rules, installed) && Plain(installed) && Plain(Canonicalized(tools))
      && Valid(rules, Canonicalized(tools))
    requires (loadedOnly ==> AllLoadable(Canonicalized(tools)))
      && CoherentTogether(rules, installed, Canonicalized(tools))
    ensures MergeAll(rules, installed, Canonicalized(tools), loadedOnly).Some?
    ensures MergeTools(rules, installed, tools, loadedOnly).Some?
       <==> WithinInstalledLimits(rules, MergeAll(rules, installed, Canonicalized(tools), loadedOnly).value)
  {
    ValidIsMergeable(rules, Canonicalized(tools));
    CoherentMerges(rules, installed, Canonicalized(tools), loadedOnly);
    MergedIsValidExactlyIf(rules, installed, Canonicalized(tools), loadedOnly);
  }

  // ---- Merging again, and in the other order -------------------------------------------

  lemma SingleMergedAgain(rules: Rules, existing: seq<Tool>, leaf: Leaf)
    requires Coherent(rules, CatalogMeaning(rules, existing), {})
      && MeaningOf(rules, leaf) in CatalogMeaning(rules, existing)
    ensures MergeSingle(rules, existing, leaf) == Some(existing)
  {
    FirstWithFinds(rules, Flat(existing), Identity(rules, MeaningOf(rules, leaf)));
  }

  lemma HeaderFindsNamespace(rules: Rules, existing: seq<Tool>, name: Name, header: Spec)
    requires DistinctNamespaces(existing) && Header(name, rules.canonical(header)) in Headers(rules, existing)
    ensures var at := FindNamespace(existing, name);
            at.Some? && rules.canonical(existing[at.value].header) == rules.canonical(header)
  {
    HeadersMembers(rules, existing, Header(name, rules.canonical(header)));
    var i :| 0 <= i < |existing| && existing[i].Namespace?
      && HeaderOf(rules, existing[i]) == Header(name, rules.canonical(header));
    assert FindNamespace(existing, name) == Some(i);
  }

  lemma NamespaceMergedAgain(rules: Rules, existing: seq<Tool>, name: Name, header: Spec, children: seq<Leaf>)
    requires Inv(rules, existing) && Coherent(rules, CatalogMeaning(rules, existing), {})
    requires Meanings(rules, PlacedAll(children, name)) <= CatalogMeaning(rules, existing)
    requires Header(name, rules.canonical(header)) in Headers(rules, existing)
    ensures MergeNamespace(rules, existing, name, header, children) == Some(existing)
  {
    HeaderFindsNamespace(rules, existing, name, header);
    var i := FindNamespace(existing, name).value;
    NamespaceHolds(rules, existing, i, children);
    ChildrenMergedAgain(rules, name, existing[i].children, children);
    assert existing[i := existing[i].(children := existing[i].children)] == existing;
  }

  /** A tool the catalog already means is not added again. */
  lemma MergedAgain(rules: Rules, existing: seq<Tool>, tool: Tool, loadedOnly: bool)
    requires Inv(rules, existing) && Coherent(rules, CatalogMeaning(rules, existing), {})
    requires Meanings(rules, Leaves(tool)) <= CatalogMeaning(rules, existing)
    requires Headers(rules, [tool]) <= Headers(rules, existing) && (loadedOnly ==> Loadable(tool))
    ensures MergeTool(rules, existing, tool, loadedOnly) == Some(existing)
  {
    NoHeader(rules, tool);
    match tool
    case Single(leaf) =>
      SingleMeaning(rules, leaf);
      SingleMergedAgain(rules, existing, leaf);
    case Namespace(name, header, children) =>
      NamespaceMergedAgain(rules, existing, name, header, children);
  }

  /** What a catalog means of a namespace is listed in that namespace. */
  lemma NamespaceHolds(rules: Rules, tools: seq<Tool>, i: nat, children: seq<Leaf>)
    requires Inv(rules, tools) && i < |tools| && tools[i].Namespace?
    requires Coherent(rules, CatalogMeaning(rules, tools), {})
    requires Meanings(rules, PlacedAll(children, tools[i].name)) <= CatalogMeaning(rules, tools)
    ensures Meanings(rules, PlacedAll(children, tools[i].name)) <= Meanings(rules, Leaves(tools[i]))
    ensures Coherent(rules, Meanings(rules, Leaves(tools[i])), {})
  {
    MeaningSplit(rules, tools, i);
    RestElsewhere(rules, tools, i);
    PlacedMeanings(rules, children, tools[i].name);
    CoherentParts(rules, CatalogMeaning(rules, tools), {}, Meanings(rules, Leaves(tools[i])), {});
  }

  lemma {:induction false} ChildrenMergedAgain(rules: Rules, namespace: Name, base: seq<Leaf>, children: seq<Leaf>)
    requires Coherent(rules, Meanings(rules, PlacedAll(base, namespace)), {})
    requires Meanings(rules, PlacedAll(children, namespace)) <= Meanings(rules, PlacedAll(base, namespace))
    ensures MergeChildren(rules, namespace, base, children) == Some(base)
  {
    hide Identity, FirstWith;
    if children != [] {
      var n := |children| - 1;
      PlacedLast(rules, children, namespace);
      ChildrenMergedAgain(rules, namespace, base, children[..n]);
      var m := MeaningOf(rules, Placed(children[n], namespace));
      assert m in Meanings(rules, PlacedAll(base, namespace));
      FirstWithFinds(rules, PlacedAll(base, namespace), Identity(rules, m));
    }
  }

  lemma {:induction false} AllMergedAgain(rules: Rules, existing: seq<Tool>, incoming: seq<Tool>, loadedOnly: bool)
    requires Inv(rules, existing) && Coherent(rules, CatalogMeaning(rules, existing), {})
    requires CatalogMeaning(rules, incoming) <= CatalogMeaning(rules, existing)
    requires Headers(rules, incoming) <= Headers(rules, existing) && (loadedOnly ==> AllLoadable(incoming))
    ensures MergeAll(rules, existing, incoming, loadedOnly) == Some(existing)
  {
    hide Coherent, MergeTool, Inv;
    if incoming != [] {
      var n := |incoming| - 1;
      LastEntry(rules, incoming);
      AllMergedAgain(rules, existing, incoming[..n], loadedOnly);
      MergedAgain(rules, existing, incoming[n], loadedOnly);
    }
  }

  /** Merging the same tools again changes nothing. */
  lemma MergeIsIdempotent(rules: Rules, installed: seq<Tool>, tools: seq<Tool>, loadedOnly: bool)
    requires Valid(rules, installed) && Plain(installed) && Plain(Canonicalized(tools))
    requires MergeTools(rules, installed, tools, loadedOnly).Some?
    ensures var merged := MergeTools(rules, installed, tools, loadedOnly).value;
            MergeTools(rules, merged, tools, loadedOnly) == Some(merged)
  {
    var merged := MergeTools(rules, installed, tools, loadedOnly).value;
    MergeKeepsBoth(rules, installed, tools, loadedOnly);
    CoherentParts(rules, CatalogMeaning(rules, merged), Headers(rules, merged), CatalogMeaning(rules, merged), {});
    if loadedOnly { RefusedToolIsLoadable(rules, installed, Canonicalized(tools)); }
    AllMergedAgain(rules, merged, Canonicalized(tools), loadedOnly);
  }

  // ---- The canonical key ----------------------------------------------------------------

  datatype Entry = One(meaning: Meaning) | Group(header: Header, children: seq<Keyed<Meaning>>)

  /** Kinds in their text order; a namespace comes after a function and before tool search. */
  function KindRank(kind: ToolKind): nat {
    match kind
    case Custom => 0
    case Function => 1
    case ToolSearch => 3
  }

  const NAMESPACE_RANK := 2

  function KeyedMeaning(m: Meaning): Keyed<Meaning> {
    Keyed(SortKey(KindRank(m.kind), m.namespace, m.name), m)
  }

  function KeyedLeaves(rules: Rules, leaves: seq<Leaf>): (keyed: seq<Keyed<Meaning>>)
    ensures |keyed| == |leaves| && forall i :: 0 <= i < |leaves| ==>
      keyed[i] == KeyedMeaning(MeaningOf(rules, leaves[i]))
  {
    if leaves == [] then []
    else KeyedLeaves(rules, leaves[..|leaves| - 1]) + [KeyedMeaning(MeaningOf(rules, leaves[|leaves| - 1]))]
  }

  function EntryOf(rules: Rules, tool: Tool): Keyed<Entry> {
    match tool
    case Single(leaf) =>
      Keyed(KeyedMeaning(MeaningOf(rules, leaf)).key, One(MeaningOf(rules, leaf)))
    case Namespace(name, _, _) =>
      Keyed(SortKey(NAMESPACE_RANK, UNNAMED, name),
            Group(HeaderOf(rules, tool), Sort(KeyedLeaves(rules, Leaves(tool)))))
  }

  function Entries(rules: Rules, tools: seq<Tool>): (entries: seq<Keyed<Entry>>)
    ensures |entries| == |tools| && forall i :: 0 <= i < |tools| ==> entries[i] == EntryOf(rules, tools[i])
  {
    if tools == [] then [] else Entries(rules, tools[..|tools| - 1]) + [EntryOf(rules, tools[|tools| - 1])]
  }

  /** What is hashed into the catalog key. */
  function CatalogKey(rules: Rules, tools: seq<Tool>): seq<Keyed<Entry>> {
    Sort(Entries(rules, tools))
  }

  lemma {:induction false} CountedMeaningsDiffer(rules: Rules, leaves: seq<Leaf>, i: nat, j: nat)
    requires |leaves| == |Meanings(rules, leaves)| && i < j < |leaves|
    ensures MeaningOf(rules, leaves[i]) != MeaningOf(rules, leaves[j])
  {
    var n := |leaves| - 1;
    MeaningsCount(rules, leaves[..n]);
    if j < n {
      CountedMeaningsDiffer(rules, leaves[..n], i, j);
    } else {
      MeaningsMembers(rules, leaves[..n], MeaningOf(rules, leaves[i]));
      assert leaves[..n][i] == leaves[i];
    }
  }

  /** In a coherent catalog a sort key belongs to one tool. */
  lemma OneToolPerKey(rules: Rules, tools: set<Meaning>, a: Meaning, b: Meaning)
    requires Coherent(rules, tools, {}) && a in tools && b in tools && KeyedMeaning(a).key == KeyedMeaning(b).key
    ensures a == b
  {
    assert a.kind == b.kind;
    assert Identity(rules, a) == Identity(rules, b);
  }

  lemma KeyedElements(rules: Rules, leaves: seq<Leaf>, m: Meaning)
    ensures KeyedMeaning(m) in Elements(KeyedLeaves(rules, leaves)) <==> m in Meanings(rules, leaves)
    ensures forall x :: x in Elements(KeyedLeaves(rules, leaves)) ==> x == KeyedMeaning(x.value)
  {
    MeaningsMembers(rules, leaves, m);
    var keyed := KeyedLeaves(rules, leaves);
    if m in Meanings(rules, leaves) {
      var i :| 0 <= i < |leaves| && MeaningOf(rules, leaves[i]) == m;
      assert keyed[i] in keyed;
    }
    if KeyedMeaning(m) in keyed {
      var i :| 0 <= i < |keyed| && keyed[i] == KeyedMeaning(m);
      assert MeaningOf(rules, leaves[i]) == m;
    }
  }

  /** Children of the same meaning, in whatever order, sort the same. */
  lemma SameChildrenSameOrder(rules: Rules, a: seq<Leaf>, b: seq<Leaf>)
    requires |a| == |Meanings(rules, a)| && |b| == |Meanings(rules, b)|
    requires Meanings(rules, a) == Meanings(rules, b) && Coherent(rules, Meanings(rules, a), {})
    ensures Sort(KeyedLeaves(rules, a)) == Sort(KeyedLeaves(rules, b))
  {
    ChildrenAscend(rules, a);
    ChildrenAscend(rules, b);
    var x, y := KeyedLeaves(rules, a), KeyedLeaves(rules, b);
    forall e ensures e in Elements(x) <==> e in Elements(y) {
      KeyedElements(rules, a, e.value);
      KeyedElements(rules, b, e.value);
    }
    SortElements(x);
    SortElements(y);
    AscendingIsUnique(Sort(x), Sort(y));
  }

  lemma ChildrenAscend(rules: Rules, leaves: seq<Leaf>)
    requires |leaves| == |Meanings(rules, leaves)| && Coherent(rules, Meanings(rules, leaves), {})
    ensures Ascending(Sort(KeyedLeaves(rules, leaves)))
  {
    var keyed := KeyedLeaves(rules, leaves);
    forall i, j | 0 <= i < j < |keyed| ensures keyed[i].key != keyed[j].key {
      CountedMeaningsDiffer(rules, leaves, i, j);
      MeaningsMembers(rules, leaves, MeaningOf(rules, leaves[i]));
      MeaningsMembers(rules, leaves, MeaningOf(rules, leaves[j]));
      if keyed[i].key == keyed[j].key {
        OneToolPerKey(rules, Meanings(rules, leaves), MeaningOf(rules, leaves[i]), MeaningOf(rules, leaves[j]));
      }
    }
    SortAscends(keyed);
  }

  /** The tools of one namespace, as the whole catalog means them. */
  lemma NamespaceMeaning(rules: Rules, tools: seq<Tool>, i: nat, m: Meaning)
    requires Inv(rules, tools) && i < |tools| && tools[i].Namespace?
    ensures m in Meanings(rules, Leaves(tools[i])) <==>
      m in CatalogMeaning(rules, tools) && m.namespace == tools[i].name
  {
    MeaningSplit(rules, tools, i);
    RestElsewhere(rules, tools, i);
    PlacedMeanings(rules, tools[i].children, tools[i].name);
  }

  lemma TopLevelMeaning(rules: Rules, tools: seq<Tool>, m: Meaning)
    requires Plain(tools) && m in CatalogMeaning(rules, tools) && m.namespace == UNNAMED
    ensures exists i :: 0 <= i < |tools| && tools[i].Single? && MeaningOf(rules, tools[i].leaf) == m
  {
    MeaningComesFrom(rules, tools, m);
    var i :| 0 <= i < |tools| && m in Meanings(rules, Leaves(tools[i]));
    if tools[i].Namespace? {
      PlacedMeanings(rules, tools[i].children, tools[i].name);
    } else {
      SingleMeaning(rules, tools[i].leaf);
    }
  }

  /** An entry of one catalog is an entry of any other with the same meaning. */
  lemma EntryIsShared(rules: Rules, a: seq<Tool>, b: seq<Tool>, i: nat)
    requires Inv(rules, a) && Inv(rules, b) && Coherent(rules, CatalogMeaning(rules, a), {}) && i < |a|
    requires CatalogMeaning(rules, a) == CatalogMeaning(rules, b) && Headers(rules, a) == Headers(rules, b)
    ensures EntryOf(rules, a[i]) in Elements(Entries(rules, b))
  {
    hide Coherent, NoRepeats, CatalogMeaning, Sort, KeyedLeaves;
    MeaningSplit(rules, a, i);
    if a[i].Single? {
      SingleMeaning(rules, a[i].leaf);
      var m := MeaningOf(rules, a[i].leaf);
      assert m in CatalogMeaning(rules, a);
      TopLevelMeaning(rules, b, m);
      var j :| 0 <= j < |b| && b[j].Single? && MeaningOf(rules, b[j].leaf) == m;
      assert Entries(rules, b)[j] == EntryOf(rules, a[i]);
    } else {
      HeadersMembers(rules, a, HeaderOf(rules, a[i]));
      HeadersMembers(rules, b, HeaderOf(rules, a[i]));
      var j :| 0 <= j < |b| && b[j].Namespace? && HeaderOf(rules, b[j]) == HeaderOf(rules, a[i]);
      SameNamespaceSameOrder(rules, a, b, i, j);
      assert Entries(rules, b)[j] == EntryOf(rules, a[i]);
    }
  }

  lemma SameNamespaceSameOrder(rules: Rules, a: seq<Tool>, b: seq<Tool>, i: nat, j: nat)
    requires Inv(rules, a) && Inv(rules, b) && Coherent(rules, CatalogMeaning(rules, a), {})
    requires CatalogMeaning(rules, a) == CatalogMeaning(rules, b)
    requires i < |a| && j < |b| && a[i].Namespace? && b[j].Namespace? && a[i].name == b[j].name
    ensures Sort(KeyedLeaves(rules, Leaves(a[i]))) == Sort(KeyedLeaves(rules, Leaves(b[j])))
  {
    forall m ensures m in Meanings(rules, Leaves(a[i])) <==> m in Meanings(rules, Leaves(b[j])) {
      NamespaceMeaning(rules, a, i, m);
      NamespaceMeaning(rules, b, j, m);
    }
    RestCounts(rules, a, i);
    RestCounts(rules, b, j);
    MeaningSplit(rules, a, i);
    CoherentParts(rules, CatalogMeaning(rules, a), {}, Meanings(rules, Leaves(a[i])), {});
    SameChildrenSameOrder(rules, Leaves(a[i]), Leaves(b[j]));
  }

  /** A top-level tool is listed only once. */
  lemma SingleListedOnce(rules: Rules, tools: seq<Tool>, j: nat)
    requires |Flat(tools)| == |CatalogMeaning(rules, tools)| && j < |tools| && tools[j].Single?
    ensures MeaningOf(rules, tools[j].leaf) !in CatalogMeaning(rules, tools[..j])
  {
    RestCounts(rules, tools, j);
    FlatSplit(tools, j);
    MeaningSplit(rules, tools, j);
    SingleMeaning(rules, tools[j].leaf);
    CountedOnce(CatalogMeaning(rules, tools[..j]), CatalogMeaning(rules, tools[j + 1..]),
                MeaningOf(rules, tools[j].leaf));
  }

  lemma CountedOnce(a: set<Meaning>, c: set<Meaning>, m: Meaning)
    requires |a + {m} + c| == |a + c| + 1
    ensures m !in a
  {
    assert a + {m} + c == (a + c) + {m};
  }

  lemma SinglesDiffer(rules: Rules, tools: seq<Tool>, i: nat, j: nat)
    requires |Flat(tools)| == |CatalogMeaning(rules, tools)| && i < j < |tools| && tools[i].Single? && tools[j].Single?
    ensures MeaningOf(rules, tools[i].leaf) != MeaningOf(rules, tools[j].leaf)
  {
    SingleListedOnce(rules, tools, j);
    assert tools[..j][i] == tools[i];
    MeaningSplit(rules, tools[..j], i);
    SingleMeaning(rules, tools[i].leaf);
  }

  lemma EntryKeysDiffer(rules: Rules, tools: seq<Tool>, i: nat, j: nat)
    requires Inv(rules, tools) && Coherent(rules, CatalogMeaning(rules, tools), {}) && i < j < |tools|
    ensures EntryOf(rules, tools[i]).key != EntryOf(rules, tools[j]).key
  {
    if tools[i].Single? && tools[j].Single? {
      SinglesDiffer(rules, tools, i, j);
      SingleIsMeant(rules, tools, i);
      SingleIsMeant(rules, tools, j);
      if EntryOf(rules, tools[i]).key == EntryOf(rules, tools[j]).key {
        OneToolPerKey(rules, CatalogMeaning(rules, tools), MeaningOf(rules, tools[i].leaf),
                      MeaningOf(rules, tools[j].leaf));
      }
    }
  }

  lemma SingleIsMeant(rules: Rules, tools: seq<Tool>, i: nat)
    requires i < |tools| && tools[i].Single?
    ensures MeaningOf(rules, tools[i].leaf) in CatalogMeaning(rules, tools)
  {
    MeaningSplit(rules, tools, i);
    SingleMeaning(rules, tools[i].leaf);
  }

  lemma EntriesAscend(rules: Rules, tools: seq<Tool>)
    requires Inv(rules, tools) && Coherent(rules, CatalogMeaning(rules, tools), {})
    ensures Ascending(CatalogKey(rules, tools))
  {
    var entries := Entries(rules, tools);
    forall i, j | 0 <= i < j < |entries| ensures entries[i].key != entries[j].key {
      EntryKeysDiffer(rules, tools, i, j);
    }
    SortAscends(entries);
  }

  /** The key is a function of the meaning: the order of tools and of children does not show in it. */
  lemma SameMeaningSameKey(rules: Rules, a: seq<Tool>, b: seq<Tool>)
    requires Inv(rules, a) && Inv(rules, b) && Coherent(rules, CatalogMeaning(rules, a), {})
    requires CatalogMeaning(rules, a) == CatalogMeaning(rules, b) && Headers(rules, a) == Headers(rules, b)
    ensures CatalogKey(rules, a) == CatalogKey(rules, b)
  {
    hide Coherent, Inv, CatalogMeaning, Sort, EntryOf;
    EntriesAscend(rules, a);
    EntriesAscend(rules, b);
    var x, y := Entries(rules, a), Entries(rules, b);
    forall e ensures e in Elements(x) <==> e in Elements(y) {
      if e in x {
        var i :| 0 <= i < |x| && x[i] == e;
        EntryIsShared(rules, a, b, i);
      }
      if e in y {
        var j :| 0 <= j < |y| && y[j] == e;
        EntryIsShared(rules, b, a, j);
      }
    }
    SortElements(x);
    SortElements(y);
    AscendingIsUnique(Sort(x), Sort(y));
  }

  /** And the meaning is a function of the key. */
  lemma SameKeySameMeaning(rules: Rules, a: seq<Tool>, b: seq<Tool>)
    requires CatalogKey(rules, a) == CatalogKey(rules, b)
    ensures CatalogMeaning(rules, a) == CatalogMeaning(rules, b) && Headers(rules, a) == Headers(rules, b)
  {
    SortElements(Entries(rules, a));
    SortElements(Entries(rules, b));
    assert Elements(Entries(rules, a)) == Elements(Entries(rules, b));
    KeyCarriesMeaning(rules, a, b);
    KeyCarriesMeaning(rules, b, a);
  }

  lemma KeyCarriesMeaning(rules: Rules, a: seq<Tool>, b: seq<Tool>)
    requires Elements(Entries(rules, a)) <= Elements(Entries(rules, b))
    ensures CatalogMeaning(rules, a) <= CatalogMeaning(rules, b) && Headers(rules, a) <= Headers(rules, b)
  {
    forall m | m in CatalogMeaning(rules, a) ensures m in CatalogMeaning(rules, b) {
      MeaningComesFrom(rules, a, m);
      var i :| 0 <= i < |a| && m in Meanings(rules, Leaves(a[i]));
      var j := SharedEntry(rules, a, b, i);
      EqualEntriesMeanTheSame(rules, a[i], b[j], m);
      MeaningSplit(rules, b, j);
    }
    forall h | h in Headers(rules, a) ensures h in Headers(rules, b) {
      HeadersMembers(rules, a, h);
      HeadersMembers(rules, b, h);
      var i :| 0 <= i < |a| && a[i].Namespace? && HeaderOf(rules, a[i]) == h;
      var j := SharedEntry(rules, a, b, i);
      assert HeaderOf(rules, b[j]) == h;
    }
  }

  lemma SharedEntry(rules: Rules, a: seq<Tool>, b: seq<Tool>, i: nat) returns (j: nat)
    requires i < |a| && Elements(Entries(rules, a)) <= Elements(Entries(rules, b))
    ensures j < |b| && EntryOf(rules, b[j]) == EntryOf(rules, a[i])
  {
    assert Entries(rules, a)[i] in Elements(Entries(rules, a));
    j :| 0 <= j < |b| && Entries(rules, b)[j] == EntryOf(rules, a[i]);
  }

  lemma EqualEntriesMeanTheSame(rules: Rules, s: Tool, t: Tool, m: Meaning)
    requires EntryOf(rules, s) == EntryOf(rules, t) && m in Meanings(rules, Leaves(s))
    ensures m in Meanings(rules, Leaves(t))
  {
    if s.Single? {
      SingleMeaning(rules, s.leaf);
      SingleMeaning(rules, t.leaf);
    } else {
      SortElements(KeyedLeaves(rules, Leaves(s)));
      SortElements(KeyedLeaves(rules, Leaves(t)));
      KeyedElements(rules, Leaves(s), m);
      KeyedElements(rules, Leaves(t), m);
    }
  }

  lemma ValidSameMeaningSameKey(rules: Rules, a: seq<Tool>, b: seq<Tool>)
    requires Valid(rules, a) && Plain(a) && Valid(rules, b) && Plain(b)
    requires CatalogMeaning(rules, a) == CatalogMeaning(rules, b) && Headers(rules, a) == Headers(rules, b)
    ensures CatalogKey(rules, a) == CatalogKey(rules, b)
  {
    CoherentParts(rules, CatalogMeaning(rules, a), Headers(rules, a), CatalogMeaning(rules, a), {});
    SameMeaningSameKey(rules, a, b);
  }

  lemma UnionsCommute<T>(c: set<T>, a: set<T>, b: set<T>)
    ensures (c + a) + b == (c + b) + a
  {
  }

  /**
   Two sets of tools merged into a catalog one after the other give the same key in
   either order, if both succeed, whichever of them a search loaded.
   */
  lemma MergeOrderDoesNotMatter(rules: Rules, installed: seq<Tool>, x: seq<Tool>, y: seq<Tool>, xLoaded: bool,
                                yLoaded: bool, xy: seq<Tool>, yx: seq<Tool>)
    requires Valid(rules, installed) && Plain(installed) && Plain(Canonicalized(x)) && Plain(Canonicalized(y))
    requires MergeTools(rules, installed, x, xLoaded).Some? && MergeTools(rules, installed, y, yLoaded).Some?
    requires MergeTools(rules, MergeTools(rules, installed, x, xLoaded).value, y, yLoaded) == Some(xy)
    requires MergeTools(rules, MergeTools(rules, installed, y, yLoaded).value, x, xLoaded) == Some(yx)
    ensures CatalogKey(rules, xy) == CatalogKey(rules, yx)
  {
    MergeTwice(rules, installed, x, y, xLoaded, yLoaded, xy);
    MergeTwice(rules, installed, y, x, yLoaded, xLoaded, yx);
    UnionsCommute(CatalogMeaning(rules, installed), CatalogMeaning(rules, Canonicalized(x)),
                  CatalogMeaning(rules, Canonicalized(y)));
    UnionsCommute(Headers(rules, installed), Headers(rules, Canonicalized(x)), Headers(rules, Canonicalized(y)));
    ValidSameMeaningSameKey(rules, xy, yx);
  }

  lemma MergeTwice(rules: Rules, installed: seq<Tool>, x: seq<Tool>, y: seq<Tool>, xLoaded: bool, yLoaded: bool,
                   xy: seq<Tool>)
    requires Valid(rules, installed) && Plain(installed) && Plain(Canonicalized(x)) && Plain(Canonicalized(y))
    requires MergeTools(rules, installed, x, xLoaded).Some?
    requires MergeTools(rules, MergeTools(rules, installed, x, xLoaded).value, y, yLoaded) == Some(xy)
    ensures Valid(rules, xy) && Plain(xy)
    ensures CatalogMeaning(rules, xy)
      == (CatalogMeaning(rules, installed) + CatalogMeaning(rules, Canonicalized(x)))
        + CatalogMeaning(rules, Canonicalized(y))
    ensures Headers(rules, xy)
      == (Headers(rules, installed) + Headers(rules, Canonicalized(x))) + Headers(rules, Canonicalized(y))
  {
    MergeKeepsBoth(rules, installed, x, xLoaded);
    MergeKeepsBoth(rules, MergeTools(rules, installed, x, xLoaded).value, y, yLoaded);
  }

  // ---- The operations as they run ---------------------------------------------------------

  lemma {:induction false} FirstWithAppend(rules: Rules, a: seq<Leaf>, b: seq<Leaf>, identity: nat)
    ensures FirstWith(rules, a + b, identity)
         == if FirstWith(rules, a, identity).Some? then FirstWith(rules, a, identity) else FirstWith(rules, b, identity)
  {
    if b == [] {
      assert a + b == a;
    } else {
      FirstWithAppend(rules, a, b[..|b| - 1], identity);
      assert (a + b)[..|a + b| - 1] == a + b[..|b| - 1];
    }
  }

  method FindLeaf(rules: Rules, leaves: seq<Leaf>, identity: nat) returns (found: Option<Leaf>)
    ensures found == FirstWith(rules, leaves, identity)
  {
    for i := 0 to |leaves|
      invariant FirstWith(rules, leaves[..i], identity).None?
    {
      assert leaves[..i + 1][..i] == leaves[..i];
      if Identity(rules, MeaningOf(rules, leaves[i])) == identity {
        assert leaves == leaves[..i + 1] + leaves[i + 1..];
        FirstWithAppend(rules, leaves[..i + 1], leaves[i + 1..], identity);
        return Some(leaves[i]);
      }
    }
    assert leaves[..|leaves|] == leaves;
    return None;
  }

  method FindInstalled(rules: Rules, existing: seq<Tool>, identity: nat) returns (found: Option<Leaf>)
    ensures found == FirstWith(rules, Flat(existing), identity)
  {
    for i := 0 to |existing|
      invariant FirstWith(rules, Flat(existing[..i]), identity).None?
    {
      FlatNext(existing, i);
      FirstWithAppend(rules, Flat(existing[..i]), Leaves(existing[i]), identity);
      found := FindLeaf(rules, Leaves(existing[i]), identity);
      if found.Some? {
        FlatSplit(existing, i);
        FirstWithAppend(rules, Flat(existing[..i]) + Leaves(existing[i]), Flat(existing[i + 1..]), identity);
        return;
      }
    }
    assert existing[..|existing|] == existing;
    return None;
  }

  method MergeLoadedNamespace(rules: Rules, existing: seq<Tool>, name: Name, header: Spec, children: seq<Leaf>)
    returns (merged: Option<seq<Tool>>)
    ensures merged == MergeNamespace(rules, existing, name, header, children)
  {
    for i := 0 to |existing|
      invariant FindNamespace(existing[..i], name).None?
    {
      assert existing[..i + 1][..i] == existing[..i];
      if existing[i].Namespace? && existing[i].name == name {
        FoundFirst(existing, name, i);
        if rules.canonical(existing[i].header) != rules.canonical(header) {
          return None;
        }
        var all := MergeIntoChildren(rules, name, existing[i].children, children);
        return if all.None? then None else Some(existing[i := existing[i].(children := all.value)]);
      }
    }
    assert existing[..|existing|] == existing;
    merged := Some(existing + [Namespace(name, header, PlacedAll(children, name))]);
  }

  lemma {:induction false} FoundFirst(tools: seq<Tool>, name: Name, i: nat)
    requires i < |tools| && FindNamespace(tools[..i], name).None? && tools[i].Namespace? && tools[i].name == name
    ensures FindNamespace(tools, name) == Some(i)
  {
    var n := |tools| - 1;
    if i < n {
      assert tools[..n][..i] == tools[..i];
      FoundFirst(tools[..n], name, i);
    }
  }

  method MergeIntoChildren(rules: Rules, namespace: Name, base: seq<Leaf>, children: seq<Leaf>)
    returns (all: Option<seq<Leaf>>)
    ensures all == MergeChildren(rules, namespace, base, children)
  {
    hide FirstWith, Identity, MeaningOf, PlacedAll;
    var out := base;
    for i := 0 to |children|
      invariant MergeChildren(rules, namespace, base, children[..i]) == Some(out)
    {
      assert children[..i + 1][..i] == children[..i];
      var child := Placed(children[i], namespace);
      var found := FindLeaf(rules, PlacedAll(out, namespace), Identity(rules, MeaningOf(rules, child)));
      if found.None? {
        out := out + [child];
      } else if MeaningOf(rules, found.value) != MeaningOf(rules, child) {
        RefusedChildRefusesAll(rules, namespace, base, children, i + 1);
        return None;
      }
    }
    assert children[..|children|] == children;
    all := Some(out);
  }

  lemma {:induction false} RefusedChildRefusesAll(rules: Rules, namespace: Name, base: seq<Leaf>, children: seq<Leaf>,
                                                  i: nat)
    requires i <= |children| && MergeChildren(rules, namespace, base, children[..i]).None?
    ensures MergeChildren(rules, namespace, base, children).None?
  {
    hide FirstWith, MeaningOf, Identity, PlacedAll;
    if i == |children| {
      assert children[..i] == children;
    } else {
      var n := |children| - 1;
      assert children[..n][..i] == children[..i];
      RefusedChildRefusesAll(rules, namespace, base, children[..n], i);
    }
  }

  method MergeCatalogTool(rules: Rules, existing: seq<Tool>, incoming: Tool, loadedOnly: bool)
    returns (merged: Option<seq<Tool>>)
    ensures merged == MergeTool(rules, existing, incoming, loadedOnly)
  {
    if loadedOnly && !Loadable(incoming) {
      return None;
    }
    if incoming.Namespace? {
      merged := MergeLoadedNamespace(rules, existing, incoming.name, incoming.header, incoming.children);
      return;
    }
    var m := MeaningOf(rules, incoming.leaf);
    var found := FindInstalled(rules, existing, Identity(rules, m));
    if found.None? {
      return Some(existing + [incoming]);
    }
    return if MeaningOf(rules, found.value) == m then Some(existing) else None;
  }

  method MergeEach(rules: Rules, installed: seq<Tool>, incoming: seq<Tool>, loadedOnly: bool)
    returns (merged: Option<seq<Tool>>)
    ensures merged == MergeAll(rules, installed, incoming, loadedOnly)
  {
    var out := installed;
    for i := 0 to |incoming|
      invariant MergeAll(rules, installed, incoming[..i], loadedOnly) == Some(out)
    {
      assert incoming[..i + 1][..i] == incoming[..i];
      var next := MergeCatalogTool(rules, out, incoming[i], loadedOnly);
      if next.None? {
        RefusedToolRefusesAll(rules, installed, incoming, loadedOnly, i + 1);
        return None;
      }
      out := next.value;
    }
    assert incoming[..|incoming|] == incoming;
    merged := Some(out);
  }

  /** Validates what comes in, merges it tool by tool, and validates the whole. */
  method MergeIntoCatalog(rules: Rules, installed: seq<Tool>, tools: seq<Tool>, loadedOnly: bool)
    returns (merged: Option<seq<Tool>>)
    ensures merged == MergeTools(rules, installed, tools, loadedOnly)
  {
    var incoming := Canonicalized(tools);
    var ok := ValidateCatalog(rules, incoming);
    if !ok {
      return None;
    }
    merged := MergeEach(rules, installed, incoming, loadedOnly);
    if merged.Some? {
      ok := ValidateCatalog(rules, merged.value);
      if !ok || !WithinInstalledLimits(rules, merged.value) {
        return None;
      }
    }
  }

  lemma {:induction false} RefusedToolRefusesAll(rules: Rules, installed: seq<Tool>, incoming: seq<Tool>,
                                                 loadedOnly: bool, i: nat)
    requires i <= |incoming| && MergeAll(rules, installed, incoming[..i], loadedOnly).None?
    ensures MergeAll(rules, installed, incoming, loadedOnly).None?
  {
    hide MergeTool;
    if i == |incoming| {
      assert incoming[..i] == incoming;
    } else {
      var n := |incoming| - 1;
      assert incoming[..n][..i] == incoming[..i];
      RefusedToolRefusesAll(rules, installed, incoming[..n], loadedOnly, i);
    }
  }

  /** Tools loaded by a search have limits of their own, checked first; no tools leave the catalog alone. */
  method MergeLoaded(rules: Rules, installed: seq<Tool>, loaded: seq<Tool>) returns (merged: Option<seq<Tool>>)
    ensures merged ==
      if loaded == [] then Some(installed)
      else if FlattenedToolCount(loaded) > 128 || !rules.withinLoadLimits(loaded) then None
      else MergeTools(rules, installed, loaded, true)
  {
    if |loaded| == 0 {
      return Some(installed);
    }
    if FlattenedToolCount(loaded) > MAX_LOADED_TOOL_COUNT || !rules.withinLoadLimits(loaded) {
      return None;
    }
    merged := MergeIntoCatalog(rules, installed, loaded, true);
  }

  // ---- The stored form --------------------------------------------------------------------

  /** A stored namespace's children do not repeat its name. */
  function StoredTool(tool: Tool): Tool {
    if tool.Single? then tool else tool.(children := PlacedAll(tool.children, UNNAMED))
  }

  function StoredTools(tools: seq<Tool>): (out: seq<Tool>)
    ensures |out| == |tools| && forall i :: 0 <= i < |tools| ==> out[i] == StoredTool(tools[i])
  {
    if tools == [] then [] else StoredTools(tools[..|tools| - 1]) + [StoredTool(tools[|tools| - 1])]
  }

  /** Tool search has one name, and runs on the client unless its record says otherwise. */
  function LeafFromStored(rules: Rules, stored: Leaf): Option<Leaf> {
    match stored.kind
    case ToolSearch =>
      var spec := if stored.spec.execution.Unset? then stored.spec.(execution := Client) else stored.spec;
      if spec.execution != Client || !rules.validJson(ToolSearch, spec) then None
      else Some(stored.(name := rules.toolSearchName, spec := spec))
    case _ =>
      if stored.name == UNNAMED || !rules.validJson(stored.kind, stored.spec) then None else Some(stored)
  }

  function ChildrenFromStored(rules: Rules, namespace: Name, stored: seq<Leaf>): Option<seq<Leaf>> {
    if stored == [] then Some([])
    else
      var before := ChildrenFromStored(rules, namespace, stored[..|stored| - 1]);
      var child := LeafFromStored(rules, stored[|stored| - 1]);
      if before.None? || child.None? || child.value.kind != Function then None
      else Some(before.value + [Placed(child.value, namespace)])
  }

  function ToolFromStored(rules: Rules, stored: Tool): Option<Tool> {
    match stored
    case Single(leaf) =>
      var read := LeafFromStored(rules, leaf);
      if read.None? then None else Some(Single(read.value))
    case Namespace(name, header, children) =>
      var read := ChildrenFromStored(rules, name, children);
      if name == UNNAMED || read.None? then None else Some(Namespace(name, header, read.value))
  }

  function ToolsFromStored(rules: Rules, stored: seq<Tool>): Option<seq<Tool>> {
    if stored == [] then Some([])
    else
      var before := ToolsFromStored(rules, stored[..|stored| - 1]);
      var tool := ToolFromStored(rules, stored[|stored| - 1]);
      if before.None? || tool.None? then None else Some(before.value + [tool.value])
  }

  ghost function NewToolCatalog(rules: Rules, tools: seq<Tool>): Option<seq<Tool>> {
    var canonical := Canonicalized(tools);
    if Valid(rules, canonical) && WithinInstalledLimits(rules, canonical) then Some(canonical) else None
  }

  /** An empty stored key is no key and is not compared. */
  ghost function CatalogFromStored(rules: Rules, stored: seq<Tool>, key: Option<seq<Keyed<Entry>>>): Option<seq<Tool>> {
    var tools := ToolsFromStored(rules, stored);
    if tools.None? then None
    else
      var catalog := NewToolCatalog(rules, tools.value);
      if catalog.None? || (key.Some? && CatalogKey(rules, catalog.value) != key.value) then None else catalog
  }

  /** What the wire adapter makes of a tool: named, with valid JSON, and tool search under its one name. */
  predicate WellFormedLeaf(rules: Rules, leaf: Leaf) {
    && rules.validJson(leaf.kind, leaf.spec)
    && if leaf.kind == ToolSearch then leaf.name == rules.toolSearchName && leaf.spec.execution == Client
      else leaf.name != UNNAMED
  }

  predicate WellFormedTool(rules: Rules, tool: Tool) {
    match tool
    case Single(leaf) => WellFormedLeaf(rules, leaf)
    case Namespace(name, _, children) => name != UNNAMED && WellFormedChildren(rules, children)
  }

  predicate WellFormedChildren(rules: Rules, children: seq<Leaf>) {
    children == [] ||
    var n := |children| - 1;
    WellFormedChildren(rules, children[..n]) && children[n].kind == Function && WellFormedLeaf(rules, children[n])
  }

  lemma LeafReadBack(rules: Rules, leaf: Leaf)
    ensures LeafFromStored(rules, leaf) == Some(leaf) <==> WellFormedLeaf(rules, leaf)
  {
  }

  lemma ChildReadBack(rules: Rules, leaf: Leaf, namespace: Name)
    requires leaf.namespace == namespace
    ensures var read := LeafFromStored(rules, Placed(leaf, UNNAMED));
            (read.Some? && read.value.kind == Function && Placed(read.value, namespace) == leaf)
              <==> leaf.kind == Function && WellFormedLeaf(rules, leaf)
  {
  }

  lemma {:induction false} ChildrenReadBack(rules: Rules, namespace: Name, children: seq<Leaf>)
    requires forall i :: 0 <= i < |children| ==> children[i].namespace == namespace
    ensures ChildrenFromStored(rules, namespace, PlacedAll(children, UNNAMED)) == Some(children) <==>
      WellFormedChildren(rules, children)
  {
    if children != [] {
      var n := |children| - 1;
      ChildrenReadBack(rules, namespace, children[..n]);
      ChildReadBack(rules, children[n], namespace);
      LastChildReadBack(rules, namespace, children);
    }
  }

  lemma LastChildReadBack(rules: Rules, namespace: Name, children: seq<Leaf>)
    requires children != []
    ensures var n := |children| - 1;
            var before := ChildrenFromStored(rules, namespace, PlacedAll(children[..n], UNNAMED));
            var child := LeafFromStored(rules, Placed(children[n], UNNAMED));
            ChildrenFromStored(rules, namespace, PlacedAll(children, UNNAMED)) == Some(children) <==>
              && before == Some(children[..n])
              && child.Some? && child.value.kind == Function && Placed(child.value, namespace) == children[n]
  {
    var n := |children| - 1;
    var stored := PlacedAll(children, UNNAMED);
    assert stored == PlacedAll(children[..n], UNNAMED) + [Placed(children[n], UNNAMED)];
    assert stored[..n] == PlacedAll(children[..n], UNNAMED);
    var before, child := ChildrenFromStored(rules, namespace, stored[..n]), LeafFromStored(rules, stored[n]);
    assert children == children[..n] + [children[n]];
    if before.Some? && child.Some? {
      LastTwo(before.value, Placed(child.value, namespace), children[..n], children[n]);
    }
  }

  lemma LastTwo<T>(a: seq<T>, x: T, b: seq<T>, y: T)
    ensures a + [x] == b + [y] <==> a == b && x == y
  {
    if a + [x] == b + [y] {
      assert |a| == |b|;
      assert (a + [x])[..|a|] == a && (b + [y])[..|b|] == b;
      assert (a + [x])[|a|] == x && (b + [y])[|b|] == y;
    }
  }

  lemma ToolReadBack(rules: Rules, tool: Tool)
    requires CanonicalTool(tool) == tool
    ensures ToolFromStored(rules, StoredTool(tool)) == Some(tool) <==> WellFormedTool(rules, tool)
  {
    match tool
    case Single(leaf) => LeafReadBack(rules, leaf);
    case Namespace(name, _, children) =>
      assert forall i :: 0 <= i < |children| ==> children[i] == PlacedAll(children, name)[i];
      ChildrenReadBack(rules, name, children);
  }

  lemma {:induction false} ToolsReadBack(rules: Rules, tools: seq<Tool>)
    requires forall i :: 0 <= i < |tools| ==> CanonicalTool(tools[i]) == tools[i]
    ensures ToolsFromStored(rules, StoredTools(tools)) == Some(tools)
       <==> forall i :: 0 <= i < |tools| ==> WellFormedTool(rules, tools[i])
  {
    if tools != [] {
      var n := |tools| - 1;
      var init, last := tools[..n], tools[n];
      assert tools == init + [last];
      ToolsReadBack(rules, init);
      ToolReadBack(rules, last);
      var stored := StoredTools(tools);
      assert stored[..n] == StoredTools(init) && stored[n] == StoredTool(last);
      var before, tool := ToolsFromStored(rules, stored[..n]), ToolFromStored(rules, stored[n]);
      if before.Some? && tool.Some? { LastTwo(before.value, tool.value, init, last); }
      assert forall i :: 0 <= i < n ==> init[i] == tools[i];
    }
  }

  /** An installed catalog of well-formed tools is read back from its stored form with the same key. */
  lemma StoredCatalogReadsBack(rules: Rules, catalog: seq<Tool>)
    requires NewToolCatalog(rules, catalog) == Some(catalog)
    requires forall i :: 0 <= i < |catalog| ==> WellFormedTool(rules, catalog[i])
    ensures CatalogFromStored(rules, StoredTools(catalog), Some(CatalogKey(rules, catalog))) == Some(catalog)
  {
    StoredToolsReadBackExactlyIf(rules, catalog);
    ReadBackIsInstalled(rules, StoredTools(catalog), catalog, Some(CatalogKey(rules, catalog)));
  }

  /** Under the key of another catalog it is accepted exactly if that catalog means the same. */
  lemma StoredUnderAnotherKeyExactlyIf(rules: Rules, catalog: seq<Tool>, other: seq<Tool>)
    requires NewToolCatalog(rules, catalog) == Some(catalog) && Plain(catalog)
    requires forall i :: 0 <= i < |catalog| ==> WellFormedTool(rules, catalog[i])
    requires Valid(rules, other) && Plain(other)
    ensures CatalogFromStored(rules, StoredTools(catalog), Some(CatalogKey(rules, other))).Some? <==>
      CatalogMeaning(rules, other) == CatalogMeaning(rules, catalog) && Headers(rules, other) == Headers(rules, catalog)
  {
    hide CatalogKey, CatalogMeaning, Headers, ToolsFromStored, StoredTools, WellFormedTool, Canonicalized, Plain;
    StoredToolsReadBackExactlyIf(rules, catalog);
    var key := CatalogKey(rules, other);
    ReadBackIsInstalled(rules, StoredTools(catalog), catalog, Some(key));
    if key == CatalogKey(rules, catalog) {
      SameKeySameMeaning(rules, catalog, other);
    } else if CatalogMeaning(rules, other) == CatalogMeaning(rules, catalog)
      && Headers(rules, other) == Headers(rules, catalog) {
      ValidSameMeaningSameKey(rules, catalog, other);
    }
  }

  lemma ReadBackIsInstalled(rules: Rules, stored: seq<Tool>, catalog: seq<Tool>, key: Option<seq<Keyed<Entry>>>)
    requires ToolsFromStored(rules, stored) == Some(catalog) && NewToolCatalog(rules, catalog) == Some(catalog)
    ensures CatalogFromStored(rules, stored, key) ==
      if key.None? || key.value == CatalogKey(rules, catalog) then Some(catalog) else None
  {
    hide ToolsFromStored, NewToolCatalog, CatalogKey;
  }

  /** What is read back unchanged before validation is well formed, and the other way round. */
  lemma StoredToolsReadBackExactlyIf(rules: Rules, catalog: seq<Tool>)
    requires NewToolCatalog(rules, catalog) == Some(catalog)
    ensures ToolsFromStored(rules, StoredTools(catalog)) == Some(catalog)
       <==> forall i :: 0 <= i < |catalog| ==> WellFormedTool(rules, catalog[i])
  {
    assert Canonicalized(catalog) == catalog;
    ToolsReadBack(rules, catalog);
  }
}
