/**
 Planning a prune (internal/sessionstore/retention.go, planPrune): three quotas
 over one list sorted oldest first, with reference counts kept incrementally and
 a cascade from the last response of a session to the session itself.

 Paths are compared for equality and order only, so an integer stands for one.
 */
module PrunePlan {
  import opened Common

  type Path = nat

  datatype Entry = Entry(
    path: Path,
    modified: int,
    bytes: nat,
    isResponse: bool,
    isSession: bool,
    pinned: bool,
    activelyPinned: bool)

  datatype Policy = Policy(maxAge: int, maxResponses: int, maxBytes: int)

  /** What the lock-free scan observed. */
  datatype Scan = Scan(
    entries: seq<Entry>,
    fixedBytes: nat,
    sessionOf: map<Path, Path>,
    sessionRefs: map<Path, nat>,
    indexPresent: bool)

  function RefsOf(sessionRefs: map<Path, nat>, session: Path): nat {
    if session in sessionRefs then sessionRefs[session] else 0
  }

  /** The responses the scan maps to a session, and those of them already chosen. */
  function Mapped(sessionOf: map<Path, Path>, session: Path): set<Path> {
    set p | p in sessionOf && sessionOf[p] == session
  }

  function Chosen(sessionOf: map<Path, Path>, selected: set<Path>, session: Path): set<Path> {
    Mapped(sessionOf, session) * selected
  }

  ghost predicate Distinct(entries: seq<Entry>) {
    forall i, j :: 0 <= i < j < |entries| ==> entries[i].path != entries[j].path
  }

  /** Every link counts towards its session, and a mapped path is a response record. */
  ghost predicate RefsCoverMapping(sessionOf: map<Path, Path>, sessionRefs: map<Path, nat>) {
    forall s :: |Mapped(sessionOf, s)| <= RefsOf(sessionRefs, s)
  }

  ghost predicate WellScanned(scan: Scan) {
    && Distinct(scan.entries)
    && (forall e :: e in scan.entries ==> !(e.isResponse && e.isSession))
    && (forall e :: e in scan.entries && e.isSession ==> e.path !in scan.sessionOf)
    && RefsCoverMapping(scan.sessionOf, scan.sessionRefs)
  }

  // ---- Reading the link index ----------------------------------------------

  lemma LinkGrowsMapping(sessionOf: map<Path, Path>, record: Path, session: Path, s: Path)
    ensures |Mapped(sessionOf[record := session], s)| <= |Mapped(sessionOf, s)| + (if s == session then 1 else 0)
  {
    var after := Mapped(sessionOf[record := session], s);
    if s == session {
      assert after <= Mapped(sessionOf, s) + {record};
      SubsetSize(after, Mapped(sessionOf, s) + {record});
    } else {
      SubsetSize(after, Mapped(sessionOf, s));
    }
  }

  /**
   The scan of the link directories. A link whose record was not listed still
   counts as a reference; a record linked from two sessions maps to the last.
   */
  method ReadLinks(dirs: seq<(Path, seq<Path>)>, records: set<Path>)
    returns (sessionOf: map<Path, Path>, sessionRefs: map<Path, nat>)
    ensures RefsCoverMapping(sessionOf, sessionRefs)
    ensures sessionOf.Keys <= records
    ensures forall d, r :: d in dirs && r in d.1 ==> RefsOf(sessionRefs, d.0) > 0
    ensures forall d, r :: d in dirs && r in d.1 && r in records ==> r in sessionOf
  {
    sessionOf, sessionRefs := map[], map[];
    forall s ensures |Mapped(sessionOf, s)| <= RefsOf(sessionRefs, s) {
      assert Mapped(sessionOf, s) == {};
    }
    for i := 0 to |dirs|
      invariant RefsCoverMapping(sessionOf, sessionRefs)
      invariant sessionOf.Keys <= records
      invariant forall d, r :: d in dirs[..i] && r in d.1 ==> RefsOf(sessionRefs, d.0) > 0
      invariant forall d, r :: d in dirs[..i] && r in d.1 && r in records ==> r in sessionOf
    {
      var session, links := dirs[i].0, dirs[i].1;
      for j := 0 to |links|
        invariant RefsCoverMapping(sessionOf, sessionRefs)
        invariant sessionOf.Keys <= records
        invariant forall d, r :: d in dirs[..i] && r in d.1 ==> RefsOf(sessionRefs, d.0) > 0
        invariant forall d, r :: d in dirs[..i] && r in d.1 && r in records ==> r in sessionOf
        invariant j > 0 ==> RefsOf(sessionRefs, session) > 0
        invariant forall r :: r in links[..j] && r in records ==> r in sessionOf
      {
        ghost var oldMap, oldRefs := sessionOf, sessionRefs;
        sessionRefs := sessionRefs[session := RefsOf(sessionRefs, session) + 1];
        if links[j] in records {
          sessionOf := sessionOf[links[j] := session];
        }
        forall s ensures |Mapped(sessionOf, s)| <= RefsOf(sessionRefs, s) {
          assert |Mapped(oldMap, s)| <= RefsOf(oldRefs, s);
          LinkGrowsMapping(oldMap, links[j], session, s);
        }
        assert links[..j + 1] == links[..j] + [links[j]];
      }
      assert dirs[..i + 1] == dirs[..i] + [dirs[i]];
      assert links[..|links|] == links;
    }
    assert dirs[..|dirs|] == dirs;
  }

  // ---- Order ---------------------------------------------------------------

  predicate Before(a: Entry, b: Entry) {
    if a.modified == b.modified then a.path <= b.path else a.modified < b.modified
  }

  ghost predicate OldestFirst(entries: seq<Entry>) {
    forall i, j :: 0 <= i < j < |entries| ==> Before(entries[i], entries[j])
  }

  function Insert(e: Entry, sorted: seq<Entry>): (r: seq<Entry>)
    ensures multiset(r) == multiset(sorted) + multiset{e}
  {
    if sorted == [] || Before(e, sorted[0]) then
      [e] + sorted
    else
      assert sorted == [sorted[0]] + sorted[1..];
      [sorted[0]] + Insert(e, sorted[1..])
  }

  lemma {:induction false} InsertSorts(e: Entry, sorted: seq<Entry>)
    requires OldestFirst(sorted)
    ensures OldestFirst(Insert(e, sorted))
  {
    if sorted != [] && !Before(e, sorted[0]) {
      InsertSorts(e, sorted[1..]);
      var tail := Insert(e, sorted[1..]);
      forall k | 0 <= k < |tail|
        ensures Before(sorted[0], tail[k])
      {
        assert tail[k] in multiset(tail);
        assert tail[k] in multiset(sorted[1..]) + multiset{e};
      }
    }
  }

  function SortEntries(entries: seq<Entry>): (r: seq<Entry>)
    ensures multiset(r) == multiset(entries)
    ensures |r| == |entries|
  {
    if entries == [] then []
    else
      assert entries == [entries[0]] + entries[1..];
      var r := Insert(entries[0], SortEntries(entries[1..]));
      assert |r| == |multiset(r)|;
      r
  }

  lemma {:induction false} SortEntriesSorts(entries: seq<Entry>)
    ensures OldestFirst(SortEntries(entries))
  {
    if entries != [] {
      SortEntriesSorts(entries[1..]);
      InsertSorts(entries[0], SortEntries(entries[1..]));
    }
  }

  // ---- Sums ----------------------------------------------------------------

  function UnselectedBytes(entries: seq<Entry>, selected: set<Path>): nat {
    if entries == [] then 0
    else (if entries[0].path in selected then 0 else entries[0].bytes) + UnselectedBytes(entries[1..], selected)
  }

  function UnselectedResponses(entries: seq<Entry>, selected: set<Path>): nat {
    if entries == [] then 0
    else
      (if entries[0].isResponse && entries[0].path !in selected then 1 else 0)
      + UnselectedResponses(entries[1..], selected)
  }

  lemma {:induction false} SelectingElsewhere(entries: seq<Entry>, selected: set<Path>, p: Path)
    requires forall e :: e in entries ==> e.path != p
    ensures UnselectedBytes(entries, selected + {p}) == UnselectedBytes(entries, selected)
    ensures UnselectedResponses(entries, selected + {p}) == UnselectedResponses(entries, selected)
  {
    if entries != [] {
      assert entries[0] in entries;
      SelectingElsewhere(entries[1..], selected, p);
    }
  }

  /** Selecting one entry takes exactly its bytes, and its response, out of the sums. */
  lemma {:induction false} SelectingOne(entries: seq<Entry>, selected: set<Path>, i: nat)
    requires Distinct(entries) && i < |entries| && entries[i].path !in selected
    ensures UnselectedBytes(entries, selected + {entries[i].path})
      == UnselectedBytes(entries, selected) - entries[i].bytes
    ensures UnselectedResponses(entries, selected + {entries[i].path})
         == UnselectedResponses(entries, selected) - (if entries[i].isResponse then 1 else 0)
  {
    if i == 0 {
      forall e | e in entries[1..] ensures e.path != entries[0].path {
        var k :| 0 <= k < |entries[1..]| && entries[1..][k] == e;
        assert entries[k + 1] == e;
      }
      SelectingElsewhere(entries[1..], selected, entries[0].path);
    } else {
      assert entries[i] == entries[1..][i - 1];
      SelectingOne(entries[1..], selected, i - 1);
    }
  }

  // ---- What a selection promises -------------------------------------------

  predicate Selectable(e: Entry, quarantined: set<Path>) {
    !e.pinned && e.path !in quarantined
  }

  /** No actively pinned or quarantined path is chosen, and no response that planning protects. */
  ghost predicate RespectsPins(entries: seq<Entry>, quarantined: set<Path>, selected: set<Path>) {
    forall e :: e in entries && e.path in selected ==>
      !e.activelyPinned && e.path !in quarantined && (!e.isSession ==> !e.pinned)
  }

  /** A session is chosen only once its whole link count is chosen with it. */
  ghost predicate SessionsJustified(entries: seq<Entry>, scan: Scan, selected: set<Path>) {
    forall e :: e in entries && e.isSession && e.path in selected ==>
      |Chosen(scan.sessionOf, selected, e.path)| == RefsOf(scan.sessionRefs, e.path)
  }

  /** Choosing the last reference of a session chooses the session, unless a pin or a quarantine forbids it. */
  ghost predicate CascadeComplete(entries: seq<Entry>, scan: Scan, quarantined: set<Path>, selected: set<Path>) {
    forall e :: e in entries && e.isSession && RefsOf(scan.sessionRefs, e.path) > 0 && !e.activelyPinned
                && e.path !in quarantined
                && |Chosen(scan.sessionOf, selected, e.path)| == RefsOf(scan.sessionRefs, e.path)
      ==> e.path in selected
  }

  /** The chosen responses are an oldest-first prefix of the selectable ones. */
  ghost predicate OldestPrefix(entries: seq<Entry>, quarantined: set<Path>, selected: set<Path>) {
    forall i, j :: 0 <= i < j < |entries| && entries[i].isResponse && entries[j].isResponse
                   && Selectable(entries[i], quarantined) && entries[j].path in selected
      ==> entries[i].path in selected
  }

  /** The incremental counts equal a recount from scratch. */
  ghost predicate RefsExact(scan: Scan, refs: map<Path, int>, selected: set<Path>) {
    && refs.Keys == scan.sessionRefs.Keys
    && forall s :: s in refs ==> refs[s] == scan.sessionRefs[s] - |Chosen(scan.sessionOf, selected, s)|
  }

  /** Planning marks: a session with a live reference, or with no readable index, is off limits. */
  function Mark(e: Entry, pins: map<Path, nat>, scan: Scan): Entry {
    var active := e.path in pins && pins[e.path] > 0;
    e.(activelyPinned := active,
       pinned := active || (e.isSession && (!scan.indexPresent || RefsOf(scan.sessionRefs, e.path) > 0)))
  }

  function Picked(entries: seq<Entry>, selected: set<Path>, sessions: bool): seq<Entry> {
    if entries == [] then []
    else (if entries[0].path in selected && entries[0].isSession == sessions then [entries[0]] else [])
         + Picked(entries[1..], selected, sessions)
  }

  lemma {:induction false} PickedAppend(a: seq<Entry>, e: Entry, selected: set<Path>, sessions: bool)
    ensures Picked(a + [e], selected, sessions)
         == Picked(a, selected, sessions) + (if e.path in selected && e.isSession == sessions then [e] else [])
  {
    if a == [] {
      assert [] + [e] == [e];
      assert [e][1..] == [];
    } else {
      assert (a + [e])[0] == a[0] && (a + [e])[1..] == a[1..] + [e];
      PickedFirst(a + [e], selected, sessions);
      PickedFirst(a, selected, sessions);
      hide Picked;
      PickedAppend(a[1..], e, selected, sessions);
    }
  }

  lemma PickedFirst(entries: seq<Entry>, selected: set<Path>, sessions: bool)
    requires entries != []
    ensures Picked(entries, selected, sessions)
         == (if entries[0].path in selected && entries[0].isSession == sessions then [entries[0]] else [])
            + Picked(entries[1..], selected, sessions)
  {
  }

  lemma {:induction false} PickedMembers(entries: seq<Entry>, selected: set<Path>, sessions: bool)
    ensures forall e :: e in Picked(entries, selected, sessions) <==>
      e in entries && e.path in selected && e.isSession == sessions
  {
    if entries != [] {
      PickedMembers(entries[1..], selected, sessions);
      assert entries == [entries[0]] + entries[1..];
    }
  }

  lemma ChoosingOne(scan: Scan, selected: set<Path>, p: Path, s: Path)
    requires p !in selected
    ensures |Chosen(scan.sessionOf, selected + {p}, s)|
         == |Chosen(scan.sessionOf, selected, s)| + (if p in scan.sessionOf && scan.sessionOf[p] == s then 1 else 0)
  {
    var before, after := Chosen(scan.sessionOf, selected, s), Chosen(scan.sessionOf, selected + {p}, s);
    if p in scan.sessionOf && scan.sessionOf[p] == s {
      assert after == before + {p};
    } else {
      assert after == before;
    }
  }

  lemma ChosenWithinRefs(scan: Scan, selected: set<Path>, s: Path)
    requires RefsCoverMapping(scan.sessionOf, scan.sessionRefs)
    ensures |Chosen(scan.sessionOf, selected, s)| <= |Mapped(scan.sessionOf, s)| <= RefsOf(scan.sessionRefs, s)
  {
    SubsetSize(Chosen(scan.sessionOf, selected, s), Mapped(scan.sessionOf, s));
  }

  /** What marking leaves the planner to work on. */
  ghost predicate Prepared(scan: Scan, entries: seq<Entry>) {
    && Distinct(entries)
    && OldestFirst(entries)
    && RefsCoverMapping(scan.sessionOf, scan.sessionRefs)
    && forall e :: e in entries ==>
         && !(e.isResponse && e.isSession)
         && (e.isSession ==> e.path !in scan.sessionOf)
         && (e.activelyPinned ==> e.pinned)
         && (e.isSession && RefsOf(scan.sessionRefs, e.path) > 0 ==> e.pinned)
  }

  /** CascadeComplete for every session but the one just losing a reference. */
  ghost predicate CascadeCompleteBut(
    entries: seq<Entry>, scan: Scan, quarantined: set<Path>, selected: set<Path>, s: Path)
  {
    forall e :: e in entries && e.path != s && e.isSession && RefsOf(scan.sessionRefs, e.path) > 0 && !e.activelyPinned
                && e.path !in quarantined
                && |Chosen(scan.sessionOf, selected, e.path)| == RefsOf(scan.sessionRefs, e.path)
      ==> e.path in selected
  }

  ghost predicate Sound(entries: seq<Entry>, scan: Scan, quarantined: set<Path>, selected: set<Path>) {
    RespectsPins(entries, quarantined, selected) && SessionsJustified(entries, scan, selected)
  }

  lemma SamePathSameEntry(entries: seq<Entry>, a: Entry, b: Entry)
    requires Distinct(entries) && a in entries && b in entries && a.path == b.path
    ensures a == b
  {
    var i :| 0 <= i < |entries| && entries[i] == a;
    var j :| 0 <= j < |entries| && entries[j] == b;
  }

  lemma ChooseKeepsSound(entries: seq<Entry>, scan: Scan, quarantined: set<Path>, selected: set<Path>, x: Entry)
    requires Prepared(scan, entries) && Sound(entries, scan, quarantined, selected)
    requires x in entries && x.path !in selected && Selectable(x, quarantined)
    ensures Sound(entries, scan, quarantined, selected + {x.path})
  {
    var after := selected + {x.path};
    forall e | e in entries && e.path in after
      ensures e.path in selected || e == x
    {
      if e.path !in selected { SamePathSameEntry(entries, e, x); }
    }
    forall e | e in entries && e.isSession && e.path in after
      ensures |Chosen(scan.sessionOf, after, e.path)| == RefsOf(scan.sessionRefs, e.path)
    {
      ChoosingOne(scan, selected, x.path, e.path);
      ChosenWithinRefs(scan, after, e.path);
    }
  }

  lemma ChooseKeepsCascade(entries: seq<Entry>, scan: Scan, quarantined: set<Path>, selected: set<Path>, x: Entry,
                           s: Path)
    requires x in entries && x.path !in selected && CascadeComplete(entries, scan, quarantined, selected)
    requires x.path in scan.sessionOf ==> scan.sessionOf[x.path] == s
    ensures CascadeCompleteBut(entries, scan, quarantined, selected + {x.path}, s)
    ensures x.path !in scan.sessionOf ==> CascadeComplete(entries, scan, quarantined, selected + {x.path})
  {
    var after := selected + {x.path};
    forall e | e in entries && (e.path != s || x.path !in scan.sessionOf)
      ensures |Chosen(scan.sessionOf, after, e.path)| == |Chosen(scan.sessionOf, selected, e.path)|
    {
      ChoosingOne(scan, selected, x.path, e.path);
    }
  }

  lemma CascadeToSession(entries: seq<Entry>, scan: Scan, quarantined: set<Path>, selected: set<Path>, x: Entry)
    requires Prepared(scan, entries) && Sound(entries, scan, quarantined, selected)
    requires x in entries && x.isSession && x.path !in selected && !x.activelyPinned && x.path !in quarantined
    requires |Chosen(scan.sessionOf, selected, x.path)| == RefsOf(scan.sessionRefs, x.path)
    requires CascadeCompleteBut(entries, scan, quarantined, selected, x.path)
    ensures Sound(entries, scan, quarantined, selected + {x.path})
    ensures CascadeComplete(entries, scan, quarantined, selected + {x.path})
  {
    var after := selected + {x.path};
    forall e | e in entries
      ensures |Chosen(scan.sessionOf, after, e.path)| == |Chosen(scan.sessionOf, selected, e.path)|
      ensures e.path in after ==> e.path in selected || e == x
    {
      ChoosingOne(scan, selected, x.path, e.path);
      if e.path in after && e.path !in selected { SamePathSameEntry(entries, e, x); }
    }
  }

  /** The session of a response loses a reference. */
  function Dropped(sessionOf: map<Path, Path>, refs: map<Path, int>, p: Path): map<Path, int> {
    if p in sessionOf && sessionOf[p] in refs then refs[sessionOf[p] := refs[sessionOf[p]] - 1] else refs
  }

  lemma RefsStayExact(scan: Scan, refs: map<Path, int>, selected: set<Path>, p: Path)
    requires RefsExact(scan, refs, selected) && RefsCoverMapping(scan.sessionOf, scan.sessionRefs)
    requires p !in selected
    ensures p in scan.sessionOf ==> scan.sessionOf[p] in refs
    ensures RefsExact(scan, Dropped(scan.sessionOf, refs, p), selected + {p})
  {
    if p in scan.sessionOf {
      var s := scan.sessionOf[p];
      assert p in Mapped(scan.sessionOf, s);
      assert |Mapped(scan.sessionOf, s)| > 0;
    }
    forall s | s in refs
      ensures |Chosen(scan.sessionOf, selected + {p}, s)|
           == |Chosen(scan.sessionOf, selected, s)| + (if p in scan.sessionOf && scan.sessionOf[p] == s then 1 else 0)
    {
      ChoosingOne(scan, selected, p, s);
    }
  }

  // ---- Why an entry is chosen ----------------------------------------------

  /** What a plan is made for. */
  datatype Task = Task(now: int, policy: Policy, scan: Scan, entries: seq<Entry>, quarantined: set<Path>)

  function PathsOf(entries: seq<Entry>): set<Path> {
    set e | e in entries :: e.path
  }

  /** Nothing older that could be taken as well is still unchosen. */
  ghost predicate OldestLeft(t: Task, before: set<Path>, x: Entry, responsesOnly: bool) {
    forall e :: e in t.entries && e != x && Before(e, x) && (responsesOnly ==> e.isResponse)
                && Selectable(e, t.quarantined)
      ==> e.path in before
  }

  predicate Expired(t: Task, x: Entry) {
    t.policy.maxAge > 0 && x.modified < t.now - t.policy.maxAge
  }

  predicate TooManyResponses(t: Task, before: set<Path>) {
    t.policy.maxResponses > 0 && UnselectedResponses(t.entries, before) > t.policy.maxResponses
  }

  predicate TooManyBytes(t: Task, before: set<Path>) {
    t.policy.maxBytes > 0 && t.scan.fixedBytes + UnselectedBytes(t.entries, before) > t.policy.maxBytes
  }

  /** With `before` chosen a quota still asks for this entry. */
  ghost predicate Due(t: Task, before: set<Path>, x: Entry) {
    || Expired(t, x)
    || (TooManyResponses(t, before) && x.isResponse && OldestLeft(t, before, x, true))
    || (TooManyBytes(t, before) && OldestLeft(t, before, x, false))
  }

  /** The response chosen just before was the session's last reference. */
  ghost predicate Orphaned(t: Task, picks: seq<Entry>, x: Entry) {
    && picks != [] && picks[|picks| - 1].path in t.scan.sessionOf
    && x.isSession && x.path == t.scan.sessionOf[picks[|picks| - 1].path]
    && |Chosen(t.scan.sessionOf, PathsOf(picks), x.path)| == RefsOf(t.scan.sessionRefs, x.path)
  }

  ghost predicate Needed(t: Task, picks: seq<Entry>, x: Entry) {
    && x in t.entries && x.path !in PathsOf(picks)
    && ((Selectable(x, t.quarantined) && Due(t, PathsOf(picks), x)) || Orphaned(t, picks, x))
  }

  /** Each pick was needed when it was made, by a quota or as a session orphaned by the pick before. */
  ghost predicate Justified(t: Task, picks: seq<Entry>)
    decreases |picks|
  {
    picks == [] || (Justified(t, picks[..|picks| - 1]) && Needed(t, picks[..|picks| - 1], picks[|picks| - 1]))
  }

  /** The chosen entries are what some such series of picks adds up to. */
  ghost predicate Minimal(t: Task, selected: set<Path>) {
    exists picks :: Justified(t, picks) && selected == PathsOf(picks)
  }

  lemma JustifiedMore(t: Task, picks: seq<Entry>, x: Entry)
    requires Justified(t, picks) && Needed(t, picks, x)
    ensures Justified(t, picks + [x]) && PathsOf(picks + [x]) == PathsOf(picks) + {x.path}
  {
    assert (picks + [x])[..|picks|] == picks;
    hide Needed;
    forall p ensures p in PathsOf(picks + [x]) <==> p in PathsOf(picks) || p == x.path {
      if p in PathsOf(picks) {
        var e :| e in picks && e.path == p;
        assert e in picks + [x];
      }
      assert x in picks + [x];
    }
  }

  lemma NeededByQuota(t: Task, picks: seq<Entry>, x: Entry)
    requires x in t.entries && x.path !in PathsOf(picks) && Selectable(x, t.quarantined) && Due(t, PathsOf(picks), x)
    ensures Needed(t, picks, x)
  {
  }

  lemma NeededAsOrphan(t: Task, picks: seq<Entry>, x: Entry)
    requires x in t.entries && x.path !in PathsOf(picks) && Orphaned(t, picks, x)
    ensures Needed(t, picks, x)
  {
  }

  /** Without an expired entry or an exceeded quota there is nothing to begin with. */
  lemma {:induction false} NothingDueNothingPicked(t: Task, picks: seq<Entry>)
    requires Justified(t, picks) && !TooManyResponses(t, {}) && !TooManyBytes(t, {})
    requires forall e :: e in t.entries ==> !Expired(t, e)
    ensures picks == []
    decreases |picks|
  {
    if picks != [] {
      NothingDueNothingPicked(t, picks[..|picks| - 1]);
      NothingNeeded(t, picks[|picks| - 1]);
    }
  }

  lemma NothingNeeded(t: Task, x: Entry)
    requires !TooManyResponses(t, {}) && !TooManyBytes(t, {}) && !Expired(t, x)
    ensures !Needed(t, [], x)
  {
    assert PathsOf([]) == {};
  }

  lemma OnlyNew(entries: seq<Entry>, before: set<Path>, x: Entry)
    requires Distinct(entries) && x in entries
    ensures forall e :: e in entries && e.path in before + {x.path} && e.path !in before ==> e == x
    ensures forall e :: e in entries && e.path == x.path ==> e == x
  {
    forall e | e in entries && e.path == x.path ensures e == x {
      SamePathSameEntry(entries, e, x);
    }
  }

  /** Half-way through a plan: what is chosen is sound, justified and counted exactly. */
  ghost predicate Adding(t: Task, selected: set<Path>, refs: map<Path, int>, picks: seq<Entry>) {
    && Prepared(t.scan, t.entries)
    && RefsExact(t.scan, refs, selected)
    && Sound(t.entries, t.scan, t.quarantined, selected)
    && selected == PathsOf(picks) && Justified(t, picks)
  }

  lemma EntryTaken(t: Task, selected: set<Path>, refs: map<Path, int>, picks: seq<Entry>, i: nat)
    requires Adding(t, selected, refs, picks) && CascadeComplete(t.entries, t.scan, t.quarantined, selected)
    requires i < |t.entries| && t.entries[i].path !in selected && Selectable(t.entries[i], t.quarantined)
    requires Due(t, selected, t.entries[i])
    ensures var x := t.entries[i];
            && Adding(t, selected + {x.path}, Dropped(t.scan.sessionOf, refs, x.path), picks + [x])
            && (x.path !in t.scan.sessionOf ==>
                  CascadeComplete(t.entries, t.scan, t.quarantined, selected + {x.path}))
            && (x.path in t.scan.sessionOf ==>
                  && t.scan.sessionOf[x.path] in refs
                  && CascadeCompleteBut(t.entries, t.scan, t.quarantined, selected + {x.path},
                                        t.scan.sessionOf[x.path]))
  {
    var x := t.entries[i];
    assert RefsCoverMapping(t.scan.sessionOf, t.scan.sessionRefs);
    hide Justified, Needed, Due, PathsOf, Sound, CascadeComplete, CascadeCompleteBut, Prepared, RefsExact,
         RefsCoverMapping, Selectable, Dropped;
    ChooseKeepsSound(t.entries, t.scan, t.quarantined, selected, x);
    ChooseKeepsCascade(t.entries, t.scan, t.quarantined, selected, x,
                       if x.path in t.scan.sessionOf then t.scan.sessionOf[x.path] else 0);
    RefsStayExact(t.scan, refs, selected, x.path);
    NeededByQuota(t, picks, x);
    JustifiedMore(t, picks, x);
  }

  lemma SessionTaken(t: Task, selected: set<Path>, refs: map<Path, int>, picks: seq<Entry>, j: nat)
    requires Adding(t, selected, refs, picks) && j < |t.entries| && t.entries[j].path !in selected
    requires t.entries[j].isSession && !t.entries[j].activelyPinned && t.entries[j].path !in t.quarantined
    requires CascadeCompleteBut(t.entries, t.scan, t.quarantined, selected, t.entries[j].path)
    requires Orphaned(t, picks, t.entries[j])
    ensures var x := t.entries[j];
            && Adding(t, selected + {x.path}, refs, picks + [x])
            && CascadeComplete(t.entries, t.scan, t.quarantined, selected + {x.path})
  {
    var x := t.entries[j];
    assert RefsCoverMapping(t.scan.sessionOf, t.scan.sessionRefs);
    assert |Chosen(t.scan.sessionOf, selected, x.path)| == RefsOf(t.scan.sessionRefs, x.path);
    assert x.path !in t.scan.sessionOf && Dropped(t.scan.sessionOf, refs, x.path) == refs;
    hide Justified, Needed, Orphaned, PathsOf, Sound, CascadeComplete, CascadeCompleteBut, Prepared, RefsExact,
         RefsCoverMapping, Dropped, Chosen;
    CascadeToSession(t.entries, t.scan, t.quarantined, selected, x);
    RefsStayExact(t.scan, refs, selected, x.path);
    NeededAsOrphan(t, picks, x);
    JustifiedMore(t, picks, x);
  }

  /** The planner's working state: the chosen paths, in the order of choice too, and the running reference counts. */
  class Planner {
    const scan: Scan
    const entries: seq<Entry>
    const quarantined: set<Path>
    const sessionIndex: map<Path, nat>
    const now: int
    const policy: Policy
    var selected: set<Path>
    var refs: map<Path, int>
    ghost var picks: seq<Entry>

    ghost function TheTask(): Task {
      Task(now, policy, scan, entries, quarantined)
    }

    ghost predicate Indexed() {
      && (forall p :: p in sessionIndex ==>
            sessionIndex[p] < |entries| && entries[sessionIndex[p]].path == p && entries[sessionIndex[p]].isSession)
      && (forall e :: e in entries && e.isSession ==> e.path in sessionIndex)
    }

    ghost predicate Valid()
      reads this
    {
      Consistent() && CascadeComplete(entries, scan, quarantined, selected)
    }

    ghost predicate Consistent()
      reads this
    {
      Indexed() && Adding(TheTask(), selected, refs, picks)
    }

    constructor (now: int, policy: Policy, scan: Scan, entries: seq<Entry>, quarantined: set<Path>,
                 sessionIndex: map<Path, nat>)
      ensures this.scan == scan && this.entries == entries
      ensures this.quarantined == quarantined && this.sessionIndex == sessionIndex
      ensures this.now == now && this.policy == policy
      ensures selected == {} && (Prepared(scan, entries) && Indexed() ==> Valid())
    {
      this.scan, this.entries, this.quarantined, this.sessionIndex := scan, entries, quarantined, sessionIndex;
      this.now, this.policy, picks := now, policy, [];
      selected := {};
      refs := map s | s in scan.sessionRefs :: scan.sessionRefs[s] as int;
      new;
      forall s ensures Chosen(scan.sessionOf, {}, s) == {} {}
    }

    /** Marks one entry for deletion, cascading to its session, and reports the bytes that frees. */
    method SelectEntry(i: nat) returns (freed: nat, ok: bool)
      requires Valid() && i < |entries|
      requires Selectable(entries[i], quarantined) && entries[i].path !in selected ==>
        Due(TheTask(), selected, entries[i])
      modifies this
      ensures Valid()
      ensures ok <==> !entries[i].pinned && entries[i].path !in old(selected) && entries[i].path !in quarantined
      ensures !ok ==> freed == 0 && selected == old(selected)
      ensures ok ==> entries[i].path in selected
      ensures old(selected) <= selected
      ensures forall e :: e in entries && !e.isSession && e.path in selected && e.path !in old(selected) ==>
        e == entries[i]
      ensures UnselectedBytes(entries, selected) == UnselectedBytes(entries, old(selected)) - freed
      ensures UnselectedResponses(entries, selected)
           == UnselectedResponses(entries, old(selected)) - (if ok && entries[i].isResponse then 1 else 0)
    {
      var entry := entries[i];
      if entry.pinned || entry.path in selected || entry.path in quarantined {
        return 0, false;
      }
      ghost var before := selected;
      SelectingOne(entries, selected, i);
      OnlyNew(entries, selected, entry);
      TakeEntry(i);
      freed := entry.bytes;
      if entry.path !in scan.sessionOf {
        return freed, true;
      }
      var session := scan.sessionOf[entry.path];
      ChosenWithinRefs(scan, selected, session);
      if refs[session] > 0 {
        return freed, true;
      }
      if session !in sessionIndex {
        return freed, true;
      }
      var j := sessionIndex[session];
      OnlyNew(entries, selected, entries[j]);
      if session in selected || entries[j].activelyPinned || session in quarantined {
        return freed, true;
      }
      SelectingOne(entries, selected, j);
      TakeSession(j);
      return freed + entries[j].bytes, true;
    }

    /** The entry itself; its session loses a reference. */
    method TakeEntry(i: nat)
      requires Valid() && i < |entries| && entries[i].path !in selected && Selectable(entries[i], quarantined)
      requires Due(TheTask(), selected, entries[i])
      modifies this
      ensures Consistent() && selected == old(selected) + {entries[i].path} && picks == old(picks) + [entries[i]]
      ensures entries[i].path !in scan.sessionOf ==> CascadeComplete(entries, scan, quarantined, selected)
      ensures entries[i].path in scan.sessionOf ==>
        && scan.sessionOf[entries[i].path] in refs
        && CascadeCompleteBut(entries, scan, quarantined, selected, scan.sessionOf[entries[i].path])
    {
      hide Adding, CascadeComplete, CascadeCompleteBut, Due, Selectable, Indexed;
      EntryTaken(TheTask(), selected, refs, picks, i);
      var entry := entries[i];
      picks := picks + [entry];
      selected := selected + {entry.path};
      refs := Dropped(scan.sessionOf, refs, entry.path);
    }

    /** The cascade: a session whose last reference was just chosen. */
    method TakeSession(j: nat)
      requires Consistent() && j < |entries| && entries[j].path !in selected && entries[j].isSession
      requires !entries[j].activelyPinned && entries[j].path !in quarantined
      requires CascadeCompleteBut(entries, scan, quarantined, selected, entries[j].path)
      requires Orphaned(TheTask(), picks, entries[j])
      modifies this
      ensures Valid() && selected == old(selected) + {entries[j].path} && picks == old(picks) + [entries[j]]
    {
      hide Adding, CascadeComplete, CascadeCompleteBut, Orphaned, Indexed;
      SessionTaken(TheTask(), selected, refs, picks, j);
      picks := picks + [entries[j]];
      selected := selected + {entries[j].path};
    }

    /** Everything selectable before `i`, among the entries `wanted`, has been selected. */
    ghost predicate Swept(i: nat, responsesOnly: bool)
      requires i <= |entries|
      reads this
    {
      forall k :: 0 <= k < i && (responsesOnly ==> entries[k].isResponse) && Selectable(entries[k], quarantined)
        ==> entries[k].path in selected
    }

    lemma SweptIsOldestLeft(i: nat, responsesOnly: bool)
      requires Valid() && i < |entries| && Swept(i, responsesOnly)
      ensures OldestLeft(TheTask(), selected, entries[i], responsesOnly)
    {
      hide Justified, Sound, CascadeComplete, RefsExact;
      forall e | e in entries && e != entries[i] && Before(e, entries[i]) && (responsesOnly ==> e.isResponse)
                 && Selectable(e, quarantined)
        ensures e.path in selected
      {
        var k :| 0 <= k < |entries| && entries[k] == e;
        assert k > i ==> Before(entries[i], entries[k]);
      }
    }

    ghost predicate ExpiredSwept(i: nat, cutoff: int)
      requires i <= |entries|
      reads this
    {
      forall k :: 0 <= k < i && entries[k].modified < cutoff && Selectable(entries[k], quarantined)
        ==> entries[k].path in selected
    }

    ghost predicate Ordered()
      reads this
    {
      OldestPrefix(entries, quarantined, selected)
    }

    method SelectExpired(cutoff: int)
      requires Valid() && selected == {}
      requires forall e :: e in entries && e.modified < cutoff ==> Expired(TheTask(), e)
      modifies this
      ensures Valid() && Ordered()
      ensures ExpiredSwept(|entries|, cutoff)
    {
      hide Sound, CascadeComplete, RefsCoverMapping, TooManyBytes;
      for i := 0 to |entries|
        invariant Valid() && Ordered()
        invariant ExpiredSwept(i, cutoff)
        invariant forall k :: i <= k < |entries| && entries[k].isResponse ==> entries[k].path !in selected
      {
        if entries[i].modified < cutoff {
          ghost var before := selected;
          var freed, ok := SelectEntry(i);
          assert forall k :: 0 <= k < i ==> Before(entries[k], entries[i]);
          KeepsOrder(before, i);
          OnlyOneMore(before, i);
        }
      }
    }

    lemma OnlyOneMore(before: set<Path>, i: nat)
      requires Distinct(entries) && i < |entries|
      requires forall e :: e in entries && !e.isSession && e.path in selected && e.path !in before ==> e == entries[i]
      ensures forall k ::
        0 <= k < |entries| && !entries[k].isSession && entries[k].path in selected && entries[k].path !in before ==>
          k == i
    {
    }

    method TrimResponses(limit: int)
      requires Valid() && Ordered() && limit > 0 && policy.maxResponses == limit
      modifies this
      ensures Valid() && Ordered() && old(selected) <= selected
      ensures UnselectedResponses(entries, selected) <= limit || Swept(|entries|, true)
    {
      var remaining := 0;
      for i := 0 to |entries|
        invariant remaining + UnselectedResponses(entries[i..], selected) == UnselectedResponses(entries, selected)
      {
        assert entries[i..][0] == entries[i] && entries[i..][1..] == entries[i + 1..];
        if entries[i].isResponse && entries[i].path !in selected {
          remaining := remaining + 1;
        }
      }
      assert entries[|entries|..] == [];
      for i := 0 to |entries|
        invariant Valid() && Ordered() && old(selected) <= selected
        invariant remaining == UnselectedResponses(entries, selected)
        invariant Swept(i, true)
      {
        if remaining <= limit {
          return;
        }
        if entries[i].isResponse && entries[i].path !in selected {
          ghost var before := selected;
          SweptIsOldestLeft(i, true);
          var freed, ok := SelectEntry(i);
          if ok {
            remaining := remaining - 1;
          }
          KeepsOrder(before, i);
        }
      }
    }

    /** Selecting entry `i` once everything selectable before it is selected keeps the prefix. */
    lemma KeepsOrder(before: set<Path>, i: nat)
      requires Prepared(scan, entries) && i < |entries|
      requires OldestPrefix(entries, quarantined, before)
      requires forall k :: 0 <= k < i && entries[k].isResponse && Selectable(entries[k], quarantined) ==>
        entries[k].path in before
      requires before <= selected
      requires forall e :: e in entries && !e.isSession && e.path in selected && e.path !in before ==> e == entries[i]
      ensures Ordered()
    {
      forall a, b | 0 <= a < b < |entries| && entries[a].isResponse && entries[b].isResponse
                    && Selectable(entries[a], quarantined) && entries[b].path in selected
        ensures entries[a].path in selected
      {
        if entries[b].path !in before {
          assert entries[b] == entries[i];
          assert b == i;
        }
      }
    }

    method TrimBytes(limit: int)
      requires Valid() && Ordered() && limit > 0 && policy.maxBytes == limit
      modifies this
      ensures Valid() && Ordered() && old(selected) <= selected
      ensures UnselectedResponses(entries, selected) <= UnselectedResponses(entries, old(selected))
      ensures scan.fixedBytes + UnselectedBytes(entries, selected) <= limit || Swept(|entries|, false)
    {
      var total := scan.fixedBytes;
      for i := 0 to |entries|
        invariant total + UnselectedBytes(entries[i..], selected)
          == scan.fixedBytes + UnselectedBytes(entries, selected)
      {
        assert entries[i..][0] == entries[i] && entries[i..][1..] == entries[i + 1..];
        if entries[i].path !in selected {
          total := total + entries[i].bytes;
        }
      }
      assert entries[|entries|..] == [];
      for i := 0 to |entries|
        invariant Valid() && Ordered() && old(selected) <= selected
        invariant UnselectedResponses(entries, selected) <= UnselectedResponses(entries, old(selected))
        invariant total == scan.fixedBytes + UnselectedBytes(entries, selected)
        invariant Swept(i, false)
      {
        if total <= limit {
          return;
        }
        if entries[i].path !in selected {
          ghost var before := selected;
          SweptIsOldestLeft(i, false);
          var freed, ok := SelectEntry(i);
          if ok {
            total := total - freed;
          }
          KeepsOrder(before, i);
        }
      }
    }

    /** The deletion order: every session after every other path. */
    method BuildPlan() returns (plan: seq<Entry>)
      ensures plan == Picked(entries, selected, false) + Picked(entries, selected, true)
    {
      plan := [];
      var sessions: seq<Entry> := [];
      for i := 0 to |entries|
        invariant plan == Picked(entries[..i], selected, false)
        invariant sessions == Picked(entries[..i], selected, true)
      {
        assert entries[..i + 1] == entries[..i] + [entries[i]];
        PickedAppend(entries[..i], entries[i], selected, false);
        PickedAppend(entries[..i], entries[i], selected, true);
        if entries[i].path in selected {
          if entries[i].isSession {
            sessions := sessions + [entries[i]];
          } else {
            plan := plan + [entries[i]];
          }
        }
      }
      assert entries[..|entries|] == entries;
      plan := plan + sessions;
    }
  }

  // ---- The whole plan ------------------------------------------------------

  /** Each enabled quota is met, or nothing selectable is left for it to take. */
  ghost predicate QuotasMet(
    now: int, policy: Policy, fixedBytes: nat, entries: seq<Entry>, quarantined: set<Path>, selected: set<Path>)
  {
    && (policy.maxAge > 0 ==>
          forall e :: e in entries && e.modified < now - policy.maxAge && Selectable(e, quarantined) ==>
            e.path in selected)
    && (policy.maxResponses > 0 ==>
          || UnselectedResponses(entries, selected) <= policy.maxResponses
          || forall e :: e in entries && e.isResponse && Selectable(e, quarantined) ==> e.path in selected)
    && (policy.maxBytes > 0 ==>
          || fixedBytes + UnselectedBytes(entries, selected) <= policy.maxBytes
          || forall e :: e in entries && Selectable(e, quarantined) ==> e.path in selected)
  }

  ghost predicate SessionsLast(plan: seq<Entry>) {
    forall i, j :: 0 <= i < j < |plan| && plan[i].isSession ==> plan[j].isSession
  }

  function MarkAll(entries: seq<Entry>, pins: map<Path, nat>, scan: Scan): (marked: seq<Entry>)
    ensures |marked| == |entries|
    ensures forall i :: 0 <= i < |entries| ==> marked[i] == Mark(entries[i], pins, scan)
  {
    if entries == [] then [] else [Mark(entries[0], pins, scan)] + MarkAll(entries[1..], pins, scan)
  }

  lemma SortingPrepares(scan: Scan)
    requires WellScanned(scan)
    ensures var sorted := SortEntries(scan.entries);
            && Distinct(sorted)
            && OldestFirst(sorted)
            && forall i :: 0 <= i < |sorted| ==>
                 && !(sorted[i].isResponse && sorted[i].isSession)
                 && (sorted[i].isSession ==> sorted[i].path !in scan.sessionOf)
  {
    var sorted := SortEntries(scan.entries);
    SortEntriesSorts(scan.entries);
    DistinctPermutes(scan.entries, sorted);
    forall i | 0 <= i < |sorted| ensures sorted[i] in scan.entries {
      assert sorted[i] in multiset(sorted);
    }
  }

  lemma MarkingKeepsOrder(sorted: seq<Entry>, pins: map<Path, nat>, scan: Scan)
    requires Distinct(sorted) && OldestFirst(sorted)
    ensures Distinct(MarkAll(sorted, pins, scan)) && OldestFirst(MarkAll(sorted, pins, scan))
  {
  }

  lemma MarkingPrepares(pins: map<Path, nat>, scan: Scan)
    requires WellScanned(scan)
    ensures Prepared(scan, MarkAll(SortEntries(scan.entries), pins, scan))
  {
    SortingPrepares(scan);
    var sorted := SortEntries(scan.entries);
    var marked := MarkAll(sorted, pins, scan);
    MarkingKeepsOrder(sorted, pins, scan);
    forall e | e in marked
      ensures !(e.isResponse && e.isSession) && (e.isSession ==> e.path !in scan.sessionOf)
      ensures (e.activelyPinned ==> e.pinned) && (e.isSession && RefsOf(scan.sessionRefs, e.path) > 0 ==> e.pinned)
    {
      var i :| 0 <= i < |marked| && marked[i] == e;
      assert e == Mark(sorted[i], pins, scan);
    }
  }

  lemma DistinctPermutes(a: seq<Entry>, b: seq<Entry>)
    requires Distinct(a) && multiset(a) == multiset(b)
    ensures Distinct(b)
  {
    if i, j :| 0 <= i < j < |b| && b[i].path == b[j].path {
      assert b[i] in multiset(a) && b[j] in multiset(a);
      SamePathSameEntry(a, b[i], b[j]);
      assert b == b[..j] + [b[j]] + b[j + 1..];
      assert b[..j] == b[..i] + [b[i]] + b[i + 1..j];
      assert multiset(b)[b[i]] >= 2;
      AtMostOnce(a, b[i]);
    }
  }

  lemma {:induction false} AtMostOnce(a: seq<Entry>, e: Entry)
    requires Distinct(a)
    ensures multiset(a)[e] <= 1
  {
    if a != [] {
      AtMostOnce(a[1..], e);
      assert a == [a[0]] + a[1..];
      forall k | 0 <= k < |a[1..]|
        ensures a[1..][k] != a[0]
      {
        assert a[1..][k] == a[k + 1];
      }
    }
  }

  lemma SortedKeepsPaths(scan: Scan, p: Path)
    ensures (exists e :: e in SortEntries(scan.entries) && e.path == p) <==> Present(scan, p)
  {
    forall e ensures e in SortEntries(scan.entries) <==> e in scan.entries {
      assert e in multiset(SortEntries(scan.entries)) <==> e in multiset(scan.entries);
    }
  }

  /** Planning's first loop: refresh the pin marks under the lock and index what is present. */
  method MarkEntries(sorted: seq<Entry>, pins: map<Path, nat>, scan: Scan)
    returns (entries: seq<Entry>, present: set<Path>, sessionIndex: map<Path, nat>)
    ensures entries == MarkAll(sorted, pins, scan)
    ensures forall p :: p in present <==> exists e :: e in sorted && e.path == p
    ensures forall p :: p in sessionIndex ==>
              sessionIndex[p] < |entries| && entries[sessionIndex[p]].path == p && entries[sessionIndex[p]].isSession
    ensures forall e :: e in entries && e.isSession ==> e.path in sessionIndex
  {
    entries, present, sessionIndex := sorted, {}, map[];
    for i := 0 to |sorted|
      invariant |entries| == |sorted|
      invariant forall k :: 0 <= k < i ==> entries[k] == Mark(sorted[k], pins, scan)
      invariant forall k :: i <= k < |sorted| ==> entries[k] == sorted[k]
      invariant forall p :: p in present <==> exists k :: 0 <= k < i && sorted[k].path == p
      invariant forall p :: p in sessionIndex ==>
                  sessionIndex[p] < i && sorted[sessionIndex[p]].path == p && sorted[sessionIndex[p]].isSession
      invariant forall k :: 0 <= k < i && sorted[k].isSession ==> sorted[k].path in sessionIndex
    {
      entries := entries[i := Mark(sorted[i], pins, scan)];
      present := present + {sorted[i].path};
      if sorted[i].isSession {
        sessionIndex := sessionIndex[sorted[i].path := i];
      }
    }
  }

  /** The chosen set of a plan over marked entries, with the quotas applied in order. */
  method Choose(now: int, scan: Scan, policy: Policy, quarantined: set<Path>, entries: seq<Entry>,
                sessionIndex: map<Path, nat>)
    returns (selected: set<Path>, plan: seq<Entry>)
    requires Prepared(scan, entries)
    requires forall p :: p in sessionIndex ==>
               sessionIndex[p] < |entries| && entries[sessionIndex[p]].path == p && entries[sessionIndex[p]].isSession
    requires forall e :: e in entries && e.isSession ==> e.path in sessionIndex
    ensures plan == Picked(entries, selected, false) + Picked(entries, selected, true)
    ensures Sound(entries, scan, quarantined, selected)
    ensures CascadeComplete(entries, scan, quarantined, selected)
    ensures OldestPrefix(entries, quarantined, selected)
    ensures QuotasMet(now, policy, scan.fixedBytes, entries, quarantined, selected)
    ensures Minimal(Task(now, policy, scan, entries, quarantined), selected)
  {
    var planner := new Planner(now, policy, scan, entries, quarantined, sessionIndex);
    if policy.maxAge > 0 {
      planner.SelectExpired(now - policy.maxAge);
      assert forall e :: e in entries && e.modified < now - policy.maxAge && Selectable(e, quarantined) ==>
        e.path in planner.selected;
    }
    if policy.maxResponses > 0 {
      planner.TrimResponses(policy.maxResponses);
      assert UnselectedResponses(entries, planner.selected) <= policy.maxResponses
          || forall e :: e in entries && e.isResponse && Selectable(e, quarantined) ==> e.path in planner.selected;
    }
    if policy.maxBytes > 0 {
      planner.TrimBytes(policy.maxBytes);
      assert scan.fixedBytes + UnselectedBytes(entries, planner.selected) <= policy.maxBytes
          || forall e :: e in entries && Selectable(e, quarantined) ==> e.path in planner.selected;
    }
    selected := planner.selected;
    plan := planner.BuildPlan();
  }

  /** Sessions come after every other path, and the plan lists exactly the chosen entries. */
  lemma PlanListsChosen(entries: seq<Entry>, selected: set<Path>)
    ensures var plan := Picked(entries, selected, false) + Picked(entries, selected, true);
            && SessionsLast(plan)
            && forall e :: e in plan <==> e in entries && e.path in selected
  {
    PickedMembers(entries, selected, false);
    PickedMembers(entries, selected, true);
    var others, sessions := Picked(entries, selected, false), Picked(entries, selected, true);
    forall i | 0 <= i < |others| ensures !others[i].isSession {
      assert others[i] in others;
    }
    forall i | 0 <= i < |sessions| ensures sessions[i].isSession {
      assert sessions[i] in sessions;
    }
  }

  /** Without an index no session is taken: none is selectable, and none is known to be orphaned. */
  lemma {:induction false} NoSessionPicked(t: Task, picks: seq<Entry>, e: Entry)
    requires Justified(t, picks) && t.scan.sessionOf == map[] && Distinct(t.entries)
    requires forall x :: x in t.entries && x.isSession ==> x.pinned
    requires e in t.entries && e.path in PathsOf(picks)
    ensures !e.isSession
    decreases |picks|
  {
    var n := |picks| - 1;
    var x :| x in picks && x.path == e.path;
    assert Needed(t, picks[..n], picks[n]);
    if x == picks[n] {
      SamePathSameEntry(t.entries, x, e);
    } else {
      assert x in picks[..n];
      NoSessionPicked(t, picks[..n], e);
    }
  }

  lemma NoIndexNoSession(
    now: int, policy: Policy, pins: map<Path, nat>, scan: Scan, quarantined: set<Path>, selected: set<Path>, e: Entry)
    requires WellScanned(scan) && !scan.indexPresent && scan.sessionOf == map[]
    requires Minimal(Task(now, policy, scan, MarkAll(SortEntries(scan.entries), pins, scan), quarantined), selected)
    requires e in MarkAll(SortEntries(scan.entries), pins, scan) && e.path in selected
    ensures !e.isSession
  {
    var t := Task(now, policy, scan, MarkAll(SortEntries(scan.entries), pins, scan), quarantined);
    MarkingPrepares(pins, scan);
    var picks :| Justified(t, picks) && selected == PathsOf(picks);
    hide Justified, Prepared, SortEntries;
    assert Distinct(t.entries) by { MarkingPrepares(pins, scan); PreparedIsDistinct(scan, t.entries); }
    NoSessionPicked(t, picks, e);
  }

  /** What is pinned or waits for its retry is kept, and without an index every session is. */
  lemma KeepsOff(now: int, policy: Policy, pins: map<Path, nat>, scan: Scan, deferred: map<Path, int>,
                 stillDeferred: map<Path, int>, selected: set<Path>, e: Entry)
    requires WellScanned(scan)
    requires forall p :: p in stillDeferred <==> p in deferred && Present(scan, p)
    requires forall p :: p in stillDeferred ==> stillDeferred[p] == deferred[p]
    requires var entries, quarantined := MarkAll(SortEntries(scan.entries), pins, scan),
      Quarantined(stillDeferred, now);
             && Sound(entries, scan, quarantined, selected)
             && Minimal(Task(now, policy, scan, entries, quarantined), selected)
             && e in entries && e.path in selected
    ensures !(e.path in pins && pins[e.path] > 0) && !(e.path in deferred && now < deferred[e.path])
    ensures !scan.indexPresent && scan.sessionOf == map[] ==> !e.isSession
  {
    var sorted := SortEntries(scan.entries);
    var i :| 0 <= i < |sorted| && MarkAll(sorted, pins, scan)[i] == e;
    assert e == Mark(sorted[i], pins, scan) && sorted[i] in sorted;
    SortedKeepsPaths(scan, e.path);
    if !scan.indexPresent && scan.sessionOf == map[] {
      NoIndexNoSession(now, policy, pins, scan, Quarantined(stillDeferred, now), selected, e);
    }
  }

  lemma PreparedIsDistinct(scan: Scan, entries: seq<Entry>)
    requires Prepared(scan, entries)
    ensures Distinct(entries)
  {
  }

  lemma {:induction false} NothingListed(entries: seq<Entry>, sessions: bool)
    ensures Picked(entries, {}, sessions) == []
  {
    if entries != [] { NothingListed(entries[1..], sessions); }
  }

  predicate Present(scan: Scan, p: Path) {
    exists e :: e in scan.entries && e.path == p
  }

  /** Paths whose last deletion failed and whose retry is not due. */
  function Quarantined(deferred: map<Path, int>, now: int): set<Path> {
    set p | p in deferred && now < deferred[p]
  }

  /** Nothing scanned is too old, and what was scanned is within both other quotas. */
  predicate NothingDue(now: int, policy: Policy, scan: Scan) {
    && (policy.maxAge > 0 ==> forall e :: e in scan.entries ==> e.modified >= now - policy.maxAge)
    && (policy.maxResponses > 0 ==> UnselectedResponses(scan.entries, {}) <= policy.maxResponses)
    && (policy.maxBytes > 0 ==> scan.fixedBytes + UnselectedBytes(scan.entries, {}) <= policy.maxBytes)
  }

  lemma {:induction false} InsertKeepsSums(e: Entry, sorted: seq<Entry>)
    ensures UnselectedBytes(Insert(e, sorted), {}) == e.bytes + UnselectedBytes(sorted, {})
    ensures UnselectedResponses(Insert(e, sorted), {})
         == (if e.isResponse then 1 else 0) + UnselectedResponses(sorted, {})
  {
    if sorted == [] || Before(e, sorted[0]) {
      assert ([e] + sorted)[1..] == sorted;
    } else {
      InsertKeepsSums(e, sorted[1..]);
      assert ([sorted[0]] + Insert(e, sorted[1..]))[1..] == Insert(e, sorted[1..]);
    }
  }

  lemma {:induction false} SortingKeepsSums(entries: seq<Entry>)
    ensures UnselectedBytes(SortEntries(entries), {}) == UnselectedBytes(entries, {})
    ensures UnselectedResponses(SortEntries(entries), {}) == UnselectedResponses(entries, {})
  {
    if entries != [] {
      SortingKeepsSums(entries[1..]);
      InsertKeepsSums(entries[0], SortEntries(entries[1..]));
    }
  }

  lemma {:induction false} MarkingKeepsSums(entries: seq<Entry>, pins: map<Path, nat>, scan: Scan)
    ensures UnselectedBytes(MarkAll(entries, pins, scan), {}) == UnselectedBytes(entries, {})
    ensures UnselectedResponses(MarkAll(entries, pins, scan), {}) == UnselectedResponses(entries, {})
  {
    if entries != [] {
      MarkingKeepsSums(entries[1..], pins, scan);
      assert MarkAll(entries, pins, scan)[1..] == MarkAll(entries[1..], pins, scan);
    }
  }

  lemma NothingDueNothingChosen(
    now: int, policy: Policy, pins: map<Path, nat>, scan: Scan, quarantined: set<Path>, selected: set<Path>)
    requires NothingDue(now, policy, scan)
    requires Minimal(Task(now, policy, scan, MarkAll(SortEntries(scan.entries), pins, scan), quarantined), selected)
    ensures selected == {}
  {
    var sorted := SortEntries(scan.entries);
    var t := Task(now, policy, scan, MarkAll(sorted, pins, scan), quarantined);
    SortingKeepsSums(scan.entries);
    MarkingKeepsSums(sorted, pins, scan);
    forall e | e in t.entries ensures !Expired(t, e) {
      var i :| 0 <= i < |sorted| && t.entries[i] == e;
      assert sorted[i] in multiset(sorted);
    }
    var picks :| Justified(t, picks) && selected == PathsOf(picks);
    NothingDueNothingPicked(t, picks);
  }

  /** The plan for a fresh scan, and the deferred paths that are still on disk. */
  method PlanPrune(now: int, scan: Scan, policy: Policy, pins: map<Path, nat>, deferred: map<Path, int>)
    returns (plan: seq<Entry>, stillDeferred: map<Path, int>, selected: set<Path>)
    requires WellScanned(scan)
    ensures forall p :: p in stillDeferred <==> p in deferred && Present(scan, p)
    ensures forall p :: p in stillDeferred ==> stillDeferred[p] == deferred[p]
    ensures var entries := MarkAll(SortEntries(scan.entries), pins, scan);
            var quarantined := Quarantined(stillDeferred, now);
            && Prepared(scan, entries)
            && SessionsLast(plan)
            && (forall e :: e in plan <==> e in entries && e.path in selected)
            && Sound(entries, scan, quarantined, selected)
            && CascadeComplete(entries, scan, quarantined, selected)
            && OldestPrefix(entries, quarantined, selected)
            && QuotasMet(now, policy, scan.fixedBytes, entries, quarantined, selected)
            && Minimal(Task(now, policy, scan, entries, quarantined), selected)
    ensures NothingDue(now, policy, scan) ==> plan == []
    ensures forall e :: e in plan ==>
      !(e.path in pins && pins[e.path] > 0) && !(e.path in deferred && now < deferred[e.path])
    ensures !scan.indexPresent && scan.sessionOf == map[] ==> forall e :: e in plan ==> !e.isSession
  {
    var sorted := SortEntries(scan.entries);
    var entries, present, sessionIndex := MarkEntries(sorted, pins, scan);
    forall p ensures p in present <==> Present(scan, p) {
      SortedKeepsPaths(scan, p);
    }
    stillDeferred := map p | p in deferred && p in present :: deferred[p];
    var quarantined := Quarantined(stillDeferred, now);
    MarkingPrepares(pins, scan);
    selected, plan := Choose(now, scan, policy, quarantined, entries, sessionIndex);
    PlanListsChosen(entries, selected);
    hide Minimal, Sound, CascadeComplete, OldestPrefix, QuotasMet, Prepared, WellScanned, SessionsLast, MarkAll,
         SortEntries, NothingDue;
    forall e | e in plan
      ensures !(e.path in pins && pins[e.path] > 0) && !(e.path in deferred && now < deferred[e.path])
      ensures !scan.indexPresent && scan.sessionOf == map[] ==> !e.isSession
    {
      KeepsOff(now, policy, pins, scan, deferred, stillDeferred, selected, e);
    }
    if NothingDue(now, policy, scan) {
      NothingDueNothingChosen(now, policy, pins, scan, quarantined, selected);
      NothingListed(entries, false);
      NothingListed(entries, true);
    }
  }
}
