/**
 The response store and its retention link index
 (internal/sessionstore/store.go and retention.go).

 The disk is a value changed by atomic file actions. A lock section performs its
 actions one at a time, any of which may fail, and every disk the section passes
 through is recorded: those are the disks a crash can leave behind. Identifiers
 stand for the file names derived from them.
 */
module RetentionStore {
  import opened Common

  type SessionId = int
  type ResponseId = int

  /** The parts of a stored record retention looks at; a deleted record is a tombstone. */
  datatype Record = Record(session: Option<SessionId>, deleted: bool, modified: int)

  /** `root` says whether the link index directory exists; a link names a session and a response. */
  datatype Disk = Disk(
    records: map<ResponseId, Record>,
    sessions: set<SessionId>,
    root: bool,
    links: set<(SessionId, ResponseId)>)

  datatype Action =
    | WriteLink(session: SessionId, response: ResponseId)
    | WriteRecord(response: ResponseId, record: Record)
    | RemoveLink(session: SessionId, response: ResponseId)
    | RemoveRecord(response: ResponseId)
    | RemoveSession(session: SessionId)
    | PublishIndex(links: set<(SessionId, ResponseId)>)
    | CreateSession(session: SessionId)

  function Apply(d: Disk, a: Action): Disk {
    match a
    case WriteLink(s, r) => d.(root := true, links := d.links + {(s, r)})
    case WriteRecord(r, rec) => d.(records := d.records[r := rec])
    case RemoveLink(s, r) => d.(links := d.links - {(s, r)})
    case RemoveRecord(r) => d.(records := d.records - {r})
    case RemoveSession(s) => d.(sessions := d.sessions - {s})
    case PublishIndex(links) => d.(root := true, links := links)
    case CreateSession(s) => d.(sessions := d.sessions + {s})
  }

  predicate Live(d: Disk, r: ResponseId) {
    r in d.records && !d.records[r].deleted
  }

  /** Record `r` is live and names session `s`. */
  predicate Names(d: Disk, r: ResponseId, s: SessionId) {
    Live(d, r) && d.records[r].session == Some(s)
  }

  /** Once the index exists it lists every live record that names a session. */
  ghost predicate IndexComplete(d: Disk) {
    && (!d.root ==> d.links == {})
    && (d.root ==> forall r, s :: Names(d, r, s) ==> (s, r) in d.links)
  }

  /** The session directory of every live record exists. */
  ghost predicate SessionsKept(d: Disk) {
    forall r, s :: Names(d, r, s) ==> s in d.sessions
  }

  ghost predicate Durable(d: Disk) {
    IndexComplete(d) && SessionsKept(d)
  }

  /** What must be known before an action for the disk to stay durable. */
  ghost predicate Safe(d: Disk, a: Action) {
    match a
    case WriteLink(s, r) => d.root
    case WriteRecord(r, rec) =>
      rec.deleted || rec.session.None?
        || (rec.session.value in d.sessions && (d.root ==> (rec.session.value, r) in d.links))
    case RemoveLink(s, r) => !Names(d, r, s)
    case RemoveRecord(r) => true
    case RemoveSession(s) => forall r :: !Names(d, r, s)
    case PublishIndex(links) => forall r, s :: Names(d, r, s) ==> (s, r) in links
    case CreateSession(s) => true
  }

  lemma SafeActionsKeepDurable(d: Disk, a: Action)
    requires Durable(d) && Safe(d, a)
    ensures Durable(Apply(d, a))
  {
    var e := Apply(d, a);
    forall r, s | Names(e, r, s)
      ensures s in e.sessions && (e.root ==> (s, r) in e.links)
    {
      if !Names(d, r, s) {
        assert a.WriteRecord? && a.response == r;
      }
    }
  }

  /** A session no link mentions is named by no live record, once the index exists. */
  lemma UnlinkedIsUnreferenced(d: Disk, s: SessionId)
    requires Durable(d) && d.root && forall r :: (s, r) !in d.links
    ensures forall r :: !Names(d, r, s)
  {
  }

  /**
   Saving while the index directory is missing creates an index holding one link.
   The index is complete afterwards exactly if no other live record names a session.
   */
  lemma SaveWithoutIndexRoot(d: Disk, r: ResponseId, s: SessionId, now: int)
    requires !d.root && d.links == {}
    ensures IndexComplete(Apply(Apply(d, WriteLink(s, r)), WriteRecord(r, Record(Some(s), false, now))))
       <==> forall r', s' :: r' != r ==> !Names(d, r', s')
  {
    var e := Apply(Apply(d, WriteLink(s, r)), WriteRecord(r, Record(Some(s), false, now)));
    assert e.root;
    forall r', s' | r' != r
      ensures Names(e, r', s') <==> Names(d, r', s')
    {
    }
    assert forall s' :: Names(e, r, s') <==> s' == s;
  }

  /** The links of a rebuilt index: one for each live record that names a session, and no others. */
  method StageIndex(d: Disk) returns (staged: set<(SessionId, ResponseId)>)
    ensures forall r, s :: (s, r) in staged <==> Names(d, r, s)
  {
    staged := {};
    var todo := d.records.Items;
    while todo != {}
      invariant todo <= d.records.Items
      invariant forall r, s :: (s, r) in staged <==> Names(d, r, s) && (r, d.records[r]) !in todo
      decreases |todo|
    {
      var item :| item in todo;
      todo := todo - {item};
      var (r, record) := item;
      if !record.deleted && record.session.Some? {
        staged := staged + {(record.session.value, r)};
      }
    }
  }

  lemma StagedIsIndexed(d: Disk, staged: set<(SessionId, ResponseId)>)
    requires !d.root && forall r, s :: (s, r) in staged <==> Names(d, r, s)
    ensures staged == Indexed(d).links
  {
    forall l ensures l in staged <==> l in Indexed(d).links {
      assert l == (l.0, l.1) && (l in staged <==> Names(d, l.1, l.0));
      if Names(d, l.1, l.0) { assert l == (d.records[l.1].session.value, l.1); }
    }
  }

  const RETRY_BASE := 60
  const RETRY_MAX := 3600

  function Doubled(base: nat, times: nat): (r: nat)
    ensures r >= base
  {
    if times == 0 then base else 2 * Doubled(base, times - 1)
  }

  /** Seconds before an undeletable path is tried again. */
  function RetryDelay(failures: nat): (delay: nat)
    requires failures > 0
    ensures RETRY_BASE <= delay <= RETRY_MAX
  {
    var doubled := Doubled(RETRY_BASE, if failures - 1 < 16 then failures - 1 else 16);
    if doubled > RETRY_MAX then RETRY_MAX else doubled
  }

  lemma {:induction false} DoubledGrows(base: nat, a: nat, b: nat)
    requires a <= b
    ensures Doubled(base, a) <= Doubled(base, b)
  {
    if a < b { DoubledGrows(base, a, b - 1); }
  }

  /** Repeated failures never bring a retry forward. */
  lemma RetryDelayGrows(a: nat, b: nat)
    requires 0 < a <= b
    ensures RetryDelay(a) <= RetryDelay(b)
  {
    DoubledGrows(RETRY_BASE, if a - 1 < 16 then a - 1 else 16, if b - 1 < 16 then b - 1 else 16);
  }

  /** The first retry waits a minute, each further one twice as long, up to an hour. */
  lemma RetryDelayDoubles(failures: nat)
    requires failures > 0
    ensures RetryDelay(1) == 60
    ensures RetryDelay(failures + 1) == if 2 * RetryDelay(failures) > 3600 then 3600 else 2 * RetryDelay(failures)
  {
    if failures > 16 {
      DoubledGrows(RETRY_BASE, 6, 16);
      assert Doubled(RETRY_BASE, 2) == 4 * RETRY_BASE && Doubled(RETRY_BASE, 4) == 4 * Doubled(RETRY_BASE, 2);
      assert Doubled(RETRY_BASE, 6) == 4 * Doubled(RETRY_BASE, 4);
    }
  }

  datatype Target = ResponseFile(response: ResponseId, observed: int) | SessionDir(session: SessionId)
  datatype Path = ResponsePath(response: ResponseId) | SessionPath(session: SessionId)
  datatype Backoff = Backoff(failures: nat, retryAt: int)
  datatype Result = Ok | NotFound | Failed

  /** One lock section, with whatever arguments its caller or a stale scan supplies. */
  datatype Op =
    | OpPin(path: Path)
    | OpUnpin(path: Path)
    | OpCreate(session: SessionId)
    | OpSave(response: ResponseId, named: Option<SessionId>, deleted: bool)
    | OpDelete(response: ResponseId)
    | OpClear(response: ResponseId, pending: bool)
    | OpRemove(target: Target, linkedTo: Option<SessionId>, indexSeen: bool)
    | OpEnsure
    | OpRestart

  function PathOf(t: Target): Path {
    match t
    case ResponseFile(r, _) => ResponsePath(r)
    case SessionDir(s) => SessionPath(s)
  }

  /** The links of a session whose record is there, and those whose record is not. */
  function LiveLinks(d: Disk, s: SessionId): set<(SessionId, ResponseId)> {
    set l | l in d.links && l.0 == s && l.1 in d.records
  }

  function DeadLinks(d: Disk, s: SessionId): set<(SessionId, ResponseId)> {
    set l | l in d.links && l.0 == s && l.1 !in d.records
  }

  function LinksOf(d: Disk, s: SessionId): set<(SessionId, ResponseId)> {
    set l | l in d.links && l.0 == s
  }

  /** Half-way through counting a session's links: the dead ones seen are gone, unless something failed. */
  ghost predicate Counting(start: Disk, d: Disk, s: SessionId, todo: set<(SessionId, ResponseId)>, live: nat,
                           failed: bool)
  {
    && d == start.(links := d.links) && d.links <= start.links
    && todo <= d.links && (forall l :: l in todo ==> l.0 == s)
    && (live == 0 ==> forall l :: l in d.links && l.0 == s ==> l in todo)
    && (live == 0 ==> LiveLinks(start, s) <= todo)
    && (!failed ==> CountsExactly(start, d.links, s, todo, live))
  }

  ghost predicate CountsExactly(start: Disk, links: set<(SessionId, ResponseId)>, s: SessionId,
                                todo: set<(SessionId, ResponseId)>, live: nat)
  {
    live == |LiveLinks(start, s) - todo| && links == start.links - (DeadLinks(start, s) - todo)
  }

  lemma CountsNothing(d: Disk, s: SessionId)
    ensures Counting(d, d, s, LinksOf(d, s), 0, false)
  {
    assert LiveLinks(d, s) - LinksOf(d, s) == {} && DeadLinks(d, s) - LinksOf(d, s) == {};
  }

  lemma CountsUnknown(start: Disk, d: Disk, s: SessionId, todo: set<(SessionId, ResponseId)>, live: nat, failed: bool,
                      link: (SessionId, ResponseId))
    requires Counting(start, d, s, todo, live, failed) && link in todo
    ensures Counting(start, d, s, todo - {link}, live + 1, true)
    ensures Counting(start, d.(links := d.links - {link}), s, todo - {link}, live + 1, true)
  {
    hide LiveLinks, DeadLinks;
  }

  lemma CountsLive(start: Disk, d: Disk, s: SessionId, todo: set<(SessionId, ResponseId)>, live: nat, failed: bool,
                   link: (SessionId, ResponseId))
    requires Counting(start, d, s, todo, live, failed) && link in todo && link.1 in d.records
    ensures Counting(start, d, s, todo - {link}, live + 1, failed)
  {
    assert link in LiveLinks(start, s) && link !in DeadLinks(start, s);
    hide LiveLinks, DeadLinks;
    assert LiveLinks(start, s) - (todo - {link}) == (LiveLinks(start, s) - todo) + {link};
    assert DeadLinks(start, s) - (todo - {link}) == DeadLinks(start, s) - todo;
  }

  lemma CountsDead(start: Disk, d: Disk, s: SessionId, todo: set<(SessionId, ResponseId)>, live: nat, failed: bool,
                   link: (SessionId, ResponseId))
    requires Counting(start, d, s, todo, live, failed) && link in todo && link.1 !in d.records
    ensures Counting(start, d.(links := d.links - {link}), s, todo - {link}, live, failed)
  {
    assert link !in LiveLinks(start, s);
    hide LiveLinks, DeadLinks, CountsExactly;
    if !failed { DropsExactly(start, d.links, s, todo, live, link); }
    assert todo - {link} <= d.links - {link};
  }

  lemma DropsExactly(start: Disk, links: set<(SessionId, ResponseId)>, s: SessionId,
                     todo: set<(SessionId, ResponseId)>, live: nat, link: (SessionId, ResponseId))
    requires CountsExactly(start, links, s, todo, live) && link in todo && link.0 == s
    requires link.1 !in start.records && link in start.links
    ensures CountsExactly(start, links - {link}, s, todo - {link}, live)
  {
    assert link !in LiveLinks(start, s) && link in DeadLinks(start, s);
    hide LiveLinks, DeadLinks;
    assert LiveLinks(start, s) - (todo - {link}) == LiveLinks(start, s) - todo;
    assert DeadLinks(start, s) - (todo - {link}) == (DeadLinks(start, s) - todo) + {link};
    LessOne(start.links, DeadLinks(start, s) - todo, link);
  }

  lemma LessOne<T>(a: set<T>, b: set<T>, x: T)
    ensures a - (b + {x}) == (a - b) - {x}
  {
  }

  lemma Counts(start: Disk, d: Disk, s: SessionId, todo: set<(SessionId, ResponseId)>, live: nat, failed: bool,
               link: (SessionId, ResponseId))
    requires Counting(start, d, s, todo, live, failed) && link in todo
    ensures link.0 == s
    ensures Counting(start, d, s, todo - {link}, live + 1, true)
    ensures Counting(start, d.(links := d.links - {link}), s, todo - {link}, live + 1, true)
    ensures link.1 in d.records ==> Counting(start, d, s, todo - {link}, live + 1, failed)
    ensures link.1 !in d.records ==> Counting(start, d.(links := d.links - {link}), s, todo - {link}, live, failed)
  {
    assert link.0 == s;
    hide Counting;
    CountsUnknown(start, d, s, todo, live, failed, link);
    if link.1 in d.records {
      CountsLive(start, d, s, todo, live, failed, link);
    } else {
      CountsDead(start, d, s, todo, live, failed, link);
    }
  }

  lemma CountsAll(start: Disk, d: Disk, s: SessionId, live: nat, failed: bool)
    requires Counting(start, d, s, {}, live, failed)
    ensures d == start.(links := d.links) && d.links <= start.links
    ensures live == 0 ==> forall r :: (s, r) !in d.links
    ensures (exists r :: (s, r) in start.links && r in start.records) ==> live > 0
    ensures !failed ==> live == |LiveLinks(start, s)| && d == start.(links := start.links - DeadLinks(start, s))
  {
    assert LiveLinks(start, s) - {} == LiveLinks(start, s) && DeadLinks(start, s) - {} == DeadLinks(start, s);
    forall r | (s, r) in start.links && r in start.records ensures (s, r) in LiveLinks(start, s) {}
  }

  /** The index as it stands, or as it would be built. */
  function Indexed(d: Disk): Disk {
    if d.root then d
    else d.(root := true,
            links := set r | r in d.records && Live(d, r) && d.records[r].session.Some? ::
              (d.records[r].session.value, r))
  }

  /** What a cleanup without a fault makes of an unpinned session. */
  function Cleaned(d: Disk, s: SessionId): Disk {
    var indexed := Indexed(d);
    if LiveLinks(indexed, s) != {} then indexed.(links := indexed.links - DeadLinks(indexed, s))
    else indexed.(sessions := indexed.sessions - {s}, links := indexed.links - LinksOf(indexed, s))
  }

  /** The disk after a save or a tombstone without a fault: the new link, the record, and no link it has outlived. */
  function Saved(d: Disk, r: ResponseId, record: Record): Disk {
    var own := if record.session.Some? then {(record.session.value, r)} else {};
    var before := if Live(d, r) && d.records[r].session.Some? then {(d.records[r].session.value, r)} else {};
    if record.deleted then d.(records := d.records[r := record], links := d.links - own)
    else d.(records := d.records[r := record], links := d.links - before + own)
  }

  /** One more failure to remove a path, and the next try after the delay it has earned. */
  function Deferred(deferred: map<Path, Backoff>, p: Path, now: int): map<Path, Backoff> {
    var failures := (if p in deferred then deferred[p].failures else 0) + 1;
    deferred[p := Backoff(failures, now + RetryDelay(failures))]
  }

  /** How many pins are on a path after one operation; a release without a pin is none, and a restart forgets all. */
  function PinsAfter(pins: nat, op: Op, p: Path): nat {
    match op
    case OpPin(q) => if q == p then pins + 1 else pins
    case OpUnpin(q) => if q == p && pins > 0 then pins - 1 else pins
    case OpRestart => 0
    case _ => pins
  }

  function PinCount(pins: nat, ops: seq<Op>, n: nat, p: Path): nat
    requires n <= |ops|
  {
    if n == 0 then pins else PinsAfter(PinCount(pins, ops, n - 1, p), ops[n - 1], p)
  }

  /** Some pin on the path remains throughout the first `n` operations. */
  predicate StaysPinned(pins: nat, ops: seq<Op>, n: nat, p: Path)
    requires n <= |ops|
  {
    PinCount(pins, ops, n, p) > 0 && (n > 0 ==> StaysPinned(pins, ops, n - 1, p))
  }

  /** The store; each method is one section under its mutex. */
  class Store {
    var disk: Disk
    var pins: map<Path, nat>
    var deletedIDs: set<ResponseId>
    var orphans: set<SessionId>
    var deferred: map<Path, Backoff>
    /** Every disk a crash could have left behind so far. */
    ghost var crashPoints: seq<Disk>
    /** How many file actions and inspections have failed so far. */
    ghost var faults: nat
    /** The callers' part: sessions pinned without a break since a moment their directory existed. */
    var held: set<SessionId>

    predicate Pinned(p: Path)
      reads `pins
    {
      p in pins && pins[p] > 0
    }

    ghost predicate Valid()
      reads `disk, `pins, `deletedIDs, `crashPoints, `held
    {
      && Durable(disk)
      && (forall d :: d in crashPoints ==> Durable(d))
      && disk in crashPoints
      && (forall s :: s in held ==> s in disk.sessions && Pinned(SessionPath(s)))
      && (forall r :: r in deletedIDs ==> !Live(disk, r))
    }

    /** A pinned response that is deleted, by its tombstone or by the store's memory of it. */
    ghost predicate Buried(r: ResponseId)
      reads this
    {
      Pinned(ResponsePath(r)) && (r in deletedIDs || (r in disk.records && disk.records[r].deleted))
    }

    constructor (disk: Disk)
      requires Durable(disk)
      ensures Valid() && this.disk == disk && pins == map[] && deletedIDs == {} && held == {}
    {
      this.disk := disk;
      pins, deletedIDs, orphans, deferred := map[], {}, {}, map[];
      crashPoints, faults, held := [disk], 0, {};
    }

    /** One file action. It may fail before or after taking effect; success means it took effect. */
    method Perform(a: Action) returns (ok: bool)
      requires Valid() && Safe(disk, a)
      requires a.RemoveSession? ==> a.session !in held
      requires a.WriteRecord? ==> a.record.deleted || a.response !in deletedIDs
      modifies `disk, `crashPoints, `faults
      ensures Valid()
      ensures disk == Apply(old(disk), a) || (!ok && disk == old(disk))
      ensures faults == old(faults) + if ok then 0 else 1
      ensures old(crashPoints) <= crashPoints
    {
      SafeActionsKeepDurable(disk, a);
      ok := *;
      if !ok {
        faults := faults + 1;
      }
      var takesEffect: bool := *;
      if ok || takesEffect {
        disk := Apply(disk, a);
        crashPoints := crashPoints + [disk];
      }
    }
  
    /** Asks for a file, which may fail. */
    method Inspect() returns (readable: bool)
      modifies `faults
      ensures faults == old(faults) + if readable then 0 else 1
    {
      readable := *;
      if !readable {
        faults := faults + 1;
      }
    }

    /** Links are dropped only for records that are gone or live elsewhere, so this never asks for trust. */
    method RemoveLinkLocked(s: SessionId, r: ResponseId) returns (ok: bool)
      requires Valid() && !Names(disk, r, s)
      modifies `disk, `crashPoints, `faults
      ensures Valid()
      ensures disk == old(disk).(links := old(disk.links) - {(s, r)}) || (!ok && disk == old(disk))
      ensures faults == old(faults) + if ok then 0 else 1
      ensures old(crashPoints) <= crashPoints
    {
      ok := Perform(RemoveLink(s, r));
    }

    /** Rebuilds a missing index from the live records and publishes it in one rename. */
    method EnsureRetentionLinksLocked() returns (ok: bool)
      requires Valid()
      modifies `disk, `crashPoints, `faults
      ensures Valid() && (ok ==> disk.root)
      ensures disk.records == old(disk.records) && disk.sessions == old(disk.sessions)
      ensures old(disk.root) ==> ok && disk == old(disk)
      ensures ok ==> disk == Indexed(old(disk))
      ensures faults == old(faults) + if ok then 0 else 1
      ensures old(crashPoints) <= crashPoints
    {
      if disk.root {
        return true;
      }
      var staged := StageIndex(disk);
      StagedIsIndexed(disk, staged);
      ok := Perform(PublishIndex(staged));
    }

    /**
     Counts the links of a session whose record file exists, dropping the others.
     `known` is false when there is no index to count from; a record that cannot be
     inspected, or a link that cannot be dropped, counts as live and is reported.
     */
    method LiveSessionRefsLocked(s: SessionId) returns (live: nat, known: bool, failed: bool)
      requires Valid()
      modifies `disk, `crashPoints, `faults
      ensures Valid()
      ensures disk.records == old(disk.records) && disk.sessions == old(disk.sessions) && disk.root == old(disk.root)
      ensures disk.links <= old(disk.links)
      ensures known == disk.root
      ensures known && live == 0 ==> forall r :: (s, r) !in disk.links
      ensures known && (exists r :: (s, r) in old(disk.links) && r in disk.records) ==> live > 0
      ensures failed <==> faults > old(faults)
      ensures known && !failed ==>
        live == |LiveLinks(old(disk), s)| && disk == old(disk).(links := old(disk.links) - DeadLinks(old(disk), s))
      ensures !known ==> disk == old(disk)
      ensures old(crashPoints) <= crashPoints && old(faults) <= faults
    {
      if !disk.root {
        return 0, false, false;
      }
      live, known, failed := 0, true, false;
      var todo := LinksOf(disk, s);
      CountsNothing(disk, s);
      hide Valid, Counting, LiveLinks, DeadLinks, LinksOf;
      while todo != {}
        invariant Valid() && old(faults) <= faults && (failed <==> faults > old(faults))
        invariant Counting(old(disk), disk, s, todo, live, failed)
        invariant old(crashPoints) <= crashPoints
        decreases todo
      {
        var link :| link in todo;
        live, failed := CountLink(link, live, failed, s, todo, old(disk));
        todo := todo - {link};
      }
      CountsAll(old(disk), disk, s, live, failed);
    }

    /** One link: counted if its record is there or cannot be looked at, dropped if the record is gone. */
    method CountLink(link: (SessionId, ResponseId), live: nat, failed: bool, ghost s: SessionId,
                     ghost todo: set<(SessionId, ResponseId)>, ghost start: Disk)
      returns (live': nat, failed': bool)
      requires Valid() && link in todo && Counting(start, disk, s, todo, live, failed)
      modifies `disk, `crashPoints, `faults
      ensures Valid() && Counting(start, disk, s, todo - {link}, live', failed')
      ensures failed' <==> failed || faults > old(faults)
      ensures old(crashPoints) <= crashPoints && old(faults) <= faults
    {
      Counts(start, disk, s, todo, live, failed, link);
      hide Valid, Counting;
      var readable := Inspect();
      if !readable {
        return live + 1, true;
      }
      if link.1 in disk.records {
        return live + 1, failed;
      }
      var ok := RemoveLinkLocked(link.0, link.1);
      assert link == (link.0, link.1);
      return if ok then live else live + 1, failed || !ok;
    }

    /** Removes the link directory of a session that no record names. */
    method RemoveSessionLinks(s: SessionId) returns (ok: bool)
      requires Valid() && forall r :: !Names(disk, r, s)
      modifies `disk, `crashPoints, `faults
      ensures Valid()
      ensures disk.records == old(disk.records) && disk.sessions == old(disk.sessions) && disk.root == old(disk.root)
      ensures faults == old(faults) + if ok then 0 else 1
      ensures ok ==> disk.links == old(disk.links) - LinksOf(old(disk), s)
      ensures disk.links <= old(disk.links)
      ensures old(crashPoints) <= crashPoints
    {
      ok := true;
      var todo := set l | l in disk.links && l.0 == s;
      while todo != {} && ok
        invariant Valid()
        invariant disk.records == old(disk.records) && disk.sessions == old(disk.sessions)
          && disk.root == old(disk.root)
        invariant forall l :: l in todo ==> l.0 == s
        invariant faults == old(faults) + if ok then 0 else 1
        invariant ok ==> disk.links == old(disk.links) - (LinksOf(old(disk), s) - todo)
        invariant disk.links <= old(disk.links)
        invariant old(crashPoints) <= crashPoints
        decreases todo
      {
        var link :| link in todo;
        todo := todo - {link};
        assert Names(disk, link.1, s) == old(Names(disk, link.1, s));
        ok := RemoveLinkLocked(s, link.1);
      }
    }

    /** Removes a session and its links unless a pin or a live record still needs it. */
    method CleanupSessionIfUnreferencedLocked(session: Option<SessionId>) returns (ok: bool)
      requires Valid()
      modifies `disk, `crashPoints, `faults, `orphans
      ensures Valid()
      ensures disk.records == old(disk.records)
      ensures forall s :: s in old(disk.sessions) && s !in disk.sessions ==>
                session == Some(s) && !Pinned(SessionPath(s)) && forall r :: !Names(disk, r, s)
      ensures disk.sessions <= old(disk.sessions)
      ensures session.Some? && Pinned(SessionPath(session.value)) ==> session.value in orphans && disk == old(disk)
      ensures ok <==> faults == old(faults)
      ensures ok && (session.None? || Pinned(SessionPath(session.value))) ==> disk == old(disk)
      ensures ok && session.Some? && !Pinned(SessionPath(session.value)) ==> disk == Cleaned(old(disk), session.value)
      ensures ok ==>
        orphans == if session.None? then old(orphans)
                   else if Pinned(SessionPath(session.value)) then old(orphans) + {session.value}
                   else old(orphans) - {session.value}
      ensures old(crashPoints) <= crashPoints && old(faults) <= faults
    {
      if session.None? {
        return true;
      }
      var s := session.value;
      if Pinned(SessionPath(s)) {
        orphans := orphans + {s};
        return true;
      }
      var built := EnsureRetentionLinksLocked();
      if !built {
        return false;
      }
      var live, known, failed := LiveSessionRefsLocked(s);
      if failed {
        return false;
      }
      if !known {
        return true;
      }
      if live > 0 {
        orphans := orphans - {s};
        return true;
      }
      UnlinkedIsUnreferenced(disk, s);
      var removed := Perform(RemoveSession(s));
      if !removed {
        return false;
      }
      var unlinked := RemoveSessionLinks(s);
      if !unlinked {
        return false;
      }
      orphans := orphans - {s};
      return true;
    }

    method Pin(p: Path)
      requires Valid()
      modifies `pins, `held
      ensures Valid() && Pinned(p)
      ensures pins == old(pins)[p := (if p in old(pins) then old(pins)[p] else 0) + 1]
      ensures held == old(held) + (if p.SessionPath? && p.session in disk.sessions then {p.session} else {})
      ensures forall r :: old(Buried(r)) ==> Buried(r)
    {
      pins := pins[p := (if p in pins then pins[p] else 0) + 1];
      if p.SessionPath? && p.session in disk.sessions {
        held := held + {p.session};
      }
    }

    /** The release returned by a pin; it runs once per pin. */
    method Unpin(p: Path)
      requires Valid() && Pinned(p)
      modifies this
      ensures Valid()
      ensures pins == if old(pins)[p] <= 1 then old(pins) - {p} else old(pins)[p := old(pins)[p] - 1]
      ensures held == if p.SessionPath? && !Pinned(p) then old(held) - {p.session} else old(held)
      ensures deletedIDs == if p.ResponsePath? && !Pinned(p) then old(deletedIDs) - {p.response} else old(deletedIDs)
      ensures faults == old(faults) ==>
        disk == if p.SessionPath? && !Pinned(p) && p.session in old(orphans) then Cleaned(old(disk), p.session)
                else old(disk)
      ensures disk.records == old(disk.records)
      ensures forall s :: s in old(disk.sessions) && s !in disk.sessions ==>
                p == SessionPath(s) && !Pinned(p) && forall r :: !Names(disk, r, s)
      ensures disk.sessions <= old(disk.sessions)
      ensures forall r :: old(Buried(r)) && (Pinned(p) || p != ResponsePath(r)) ==> Buried(r)
      ensures old(crashPoints) <= crashPoints
    {
      if pins[p] <= 1 {
        pins := pins - {p};
        if p.SessionPath? {
          held := held - {p.session};
        }
      } else {
        pins := pins[p := pins[p] - 1];
      }
      if p.ResponsePath? && !Pinned(p) {
        deletedIDs := deletedIDs - {p.response};
      }
      if p.SessionPath? && p.session in orphans {
        var _ := CleanupSessionIfUnreferencedLocked(Some(p.session));
      }
    }

    /** The SDK creates session directories without the store's mutex. */
    method SessionCreated(s: SessionId)
      requires Valid()
      modifies `disk, `crashPoints, `faults, `held
      ensures Valid()
      ensures faults == old(faults) ==>
        s in disk.sessions && held == old(held) + (if Pinned(SessionPath(s)) then {s} else {})
      ensures disk.records == old(disk.records) && disk.sessions <= old(disk.sessions) + {s}
        && old(disk.sessions) <= disk.sessions
      ensures old(crashPoints) <= crashPoints
      ensures forall r :: old(Buried(r)) ==> Buried(r)
    {
      var created := Perform(CreateSession(s));
      if created && Pinned(SessionPath(s)) {
        held := held + {s};
      }
    }

    /**
     Saves a record, or its tombstone. The caller's part is to have the index and
     to name a session it has kept pinned since the session's directory existed.
     */
    method SaveResponse(r: ResponseId, session: Option<SessionId>, deleted: bool, now: int) returns (result: Result)
      requires Valid() && disk.root
      requires !deleted && session.Some? ==> session.value in held
      modifies `disk, `crashPoints, `faults, `deletedIDs
      ensures Valid()
      ensures result == NotFound <==>
        !deleted && (r in old(deletedIDs) || (r in old(disk.records) && old(disk.records[r]).deleted))
      ensures result == NotFound ==> disk == old(disk) && faults == old(faults)
      ensures result == Failed <==> faults > old(faults)
      ensures result == Ok ==> disk == Saved(old(disk), r, Record(session, deleted, now))
      ensures result == Ok ==> deletedIDs == old(deletedIDs) + if deleted && Pinned(ResponsePath(r)) then {r} else {}
      ensures result == Ok && !deleted ==> forall s :: s != session.GetOr(s) && old(Names(disk, r, s)) ==>
        (s, r) !in disk.links
      ensures disk.records == old(disk.records) || disk.records == old(disk.records)[r := Record(session, deleted, now)]
      ensures disk.sessions == old(disk.sessions)
      ensures forall x :: old(Buried(x)) ==> Buried(x)
      ensures old(crashPoints) <= crashPoints
    {
      var previous: Option<SessionId> := None;
      if !deleted {
        if r in deletedIDs {
          return NotFound;
        }
        if r in disk.records {
          if disk.records[r].deleted {
            if Pinned(ResponsePath(r)) {
              deletedIDs := deletedIDs + {r};
            }
            return NotFound;
          }
          previous := disk.records[r].session;
        }
        if session.Some? && (session.value, r) !in disk.links {
          var linked := Perform(WriteLink(session.value, r));
          if !linked {
            return Failed;
          }
        }
      }
      var written := Perform(WriteRecord(r, Record(session, deleted, now)));
      if !written {
        return Failed;
      }
      if deleted && session.Some? {
        var unlinked := RemoveLinkLocked(session.value, r);
        if !unlinked {
          return Failed;
        }
      } else if !deleted && previous.Some? && previous != session {
        var unlinked := RemoveLinkLocked(previous.value, r);
        if !unlinked {
          return Failed;
        }
      }
      if deleted && Pinned(ResponsePath(r)) {
        deletedIDs := deletedIDs + {r};
      }
      return Ok;
    }

    /** Retires a record's claim, if it has one: the record is rewritten, its session is not. */
    method ClearInputPending(r: ResponseId, pending: bool, now: int) returns (result: Result)
      requires Valid()
      modifies `disk, `crashPoints, `faults
      ensures Valid()
      ensures forall x :: x in disk.records <==> x in old(disk.records)
      ensures forall x :: x in disk.records ==> disk.records[x].(modified := 0) == old(disk.records)[x].(modified := 0)
      ensures disk.sessions == old(disk.sessions)
      ensures result == if faults == old(faults) then Ok else Failed
      ensures result == Ok && old(Live(disk, r)) && pending ==>
        disk == old(disk).(records := old(disk.records)[r := old(disk.records)[r].(modified := now)])
      ensures !old(Live(disk, r)) || !pending ==> disk == old(disk)
      ensures forall x :: old(Buried(x)) ==> Buried(x)
      ensures old(crashPoints) <= crashPoints
    {
      if r !in disk.records || disk.records[r].deleted || !pending {
        return Ok;
      }
      if disk.records[r].session.Some? {
        assert Names(disk, r, disk.records[r].session.value);
      }
      var written := Perform(WriteRecord(r, disk.records[r].(modified := now)));
      return if written then Ok else Failed;
    }

    method DeleteResponse(r: ResponseId, now: int) returns (result: Result)
      requires Valid()
      modifies `disk, `crashPoints, `faults, `deletedIDs, `orphans
      ensures Valid()
      ensures result == NotFound <==> !old(Live(disk, r))
      ensures result == NotFound ==> disk == old(disk) && faults == old(faults)
      ensures result == Failed ==> faults > old(faults)
      ensures faults == old(faults) && old(Live(disk, r)) ==>
        var session, dead := old(disk.records)[r].session,
                             Saved(old(disk), r, Record(old(disk.records)[r].session, true, now));
        && result == Ok
        && disk == (if session.None? || Pinned(SessionPath(session.value)) then dead else Cleaned(dead, session.value))
        && deletedIDs == old(deletedIDs) + (if Pinned(ResponsePath(r)) then {r} else {})
      ensures result == Ok ==> r in disk.records && disk.records[r].deleted
      ensures result == Ok && Pinned(ResponsePath(r)) ==> Buried(r)
      ensures forall s :: s in old(disk.sessions) && s !in disk.sessions ==>
                !Pinned(SessionPath(s)) && forall x :: !Names(disk, x, s)
      ensures disk.sessions <= old(disk.sessions)
      ensures forall x :: old(Buried(x)) ==> Buried(x)
      ensures old(crashPoints) <= crashPoints
    {
      if !Live(disk, r) {
        return NotFound;
      }
      var session := disk.records[r].session;
      var written := Perform(WriteRecord(r, Record(session, true, now)));
      if !written {
        return Failed;
      }
      if session.Some? {
        var unlinked := RemoveLinkLocked(session.value, r);
        if !unlinked {
          return Failed;
        }
      }
      if Pinned(ResponsePath(r)) {
        deletedIDs := deletedIDs + {r};
      }
      var _ := CleanupSessionIfUnreferencedLocked(session);
      return Ok;
    }

    method DeferPruneLocked(p: Path, now: int)
      modifies `deferred
      ensures deferred == Deferred(old(deferred), p, now)
      ensures p in deferred && now + RETRY_BASE <= deferred[p].retryAt <= now + RETRY_MAX
      ensures deferred[p].failures == (if p in old(deferred) then old(deferred)[p].failures else 0) + 1
    {
      var failures := (if p in deferred then deferred[p].failures else 0) + 1;
      deferred := deferred[p := Backoff(failures, now + RetryDelay(failures))];
    }

    /**
     The path is still there and collectable: unpinned, not rewritten since the scan, a
     session without live links.
     */
    predicate Collectable(target: Target, indexSeen: bool)
      reads `disk, `pins
    {
      && !Pinned(PathOf(target))
      && match target
         case ResponseFile(r, observed) => r in disk.records && disk.records[r].modified <= observed
         case SessionDir(s) => indexSeen && disk.root && LiveLinks(disk, s) == {}
    }

    /**
     Deletes one planned path. The scan is only a hint: `target`, `linkedTo` and
     `indexSeen` are whatever a lock-free scan, however stale, happened to observe.
     What is collectable goes unless a file action fails, and a failure is retried later.
     */
    method RemoveRetainedLocked(target: Target, linkedTo: Option<SessionId>, indexSeen: bool, now: int)
      returns (removed: bool)
      requires Valid()
      modifies `disk, `crashPoints, `faults, `deferred
      ensures Valid()
      ensures removed ==> old(Collectable(target, indexSeen))
      ensures faults == old(faults) ==> removed == old(Collectable(target, indexSeen))
      ensures removed ==> deferred == old(deferred) - {PathOf(target)}
      ensures !removed ==>
        || deferred == old(deferred)
        || (faults > old(faults) && deferred == Deferred(old(deferred), PathOf(target), now))
      ensures !removed && target.ResponseFile? && old(Collectable(target, indexSeen)) ==>
        deferred == Deferred(old(deferred), PathOf(target), now)
      ensures !removed && faults == old(faults) ==>
        disk.records == old(disk.records) && disk.sessions == old(disk.sessions)
      ensures disk.root == old(disk.root) && disk.links <= old(disk.links)
      ensures removed && faults == old(faults) ==>
        match target
        case ResponseFile(r, _) =>
          disk == old(disk).(records := old(disk.records) - {r},
                             links := old(disk.links) - if linkedTo.Some? then {(linkedTo.value, r)} else {})
        case SessionDir(s) =>
          disk == old(disk).(sessions := old(disk.sessions) - {s}, links := old(disk.links) - LinksOf(old(disk), s))
      ensures Pinned(PathOf(target)) ==> !removed && disk == old(disk)
      ensures (target.ResponseFile? && target.response in old(disk.records)
               && old(disk.records)[target.response].modified > target.observed) ==> !removed && disk == old(disk)
      ensures forall s :: s in old(disk.sessions) && s !in disk.sessions ==>
                target == SessionDir(s) && indexSeen && !Pinned(SessionPath(s)) && forall r :: !Names(disk, r, s)
      ensures disk.sessions <= old(disk.sessions)
      ensures forall r :: r in old(disk.records) && r !in disk.records ==>
                target.ResponseFile? && r == target.response && !Pinned(ResponsePath(r))
      ensures forall r :: r in disk.records ==> r in old(disk.records) && disk.records[r] == old(disk.records)[r]
      ensures removed ==> match target
                case ResponseFile(r, _) => r !in disk.records
                case SessionDir(s) => s !in disk.sessions
      ensures forall r :: old(Buried(r)) ==> Buried(r)
      ensures old(crashPoints) <= crashPoints && old(faults) <= faults
    {
      if Pinned(PathOf(target)) {
        return false;
      }
      match target {
        case SessionDir(s) =>
          if !indexSeen {
            return false;
          }
          var live, known, failed := LiveSessionRefsLocked(s);
          if failed || !known || live > 0 {
            return false;
          }
          UnlinkedIsUnreferenced(disk, s);
          var gone := Perform(RemoveSession(s));
          if !gone {
            DeferPruneLocked(SessionPath(s), now);
            return false;
          }
          deferred := deferred - {SessionPath(s)};
          var _ := RemoveSessionLinks(s);
          return true;
        case ResponseFile(r, observed) =>
          if r !in disk.records {
            return false;
          }
          if disk.records[r].modified > observed {
            return false;
          }
          var gone := Perform(RemoveRecord(r));
          if !gone {
            DeferPruneLocked(ResponsePath(r), now);
            return false;
          }
          deferred := deferred - {ResponsePath(r)};
          if linkedTo.Some? {
            var _ := RemoveLinkLocked(linkedTo.value, r);
          }
          return true;
      }
    }

    /** A planned path that goes: a collectable response, or a session that loses its last live link to the plan. */
    ghost predicate Goes(plan: seq<(Target, Option<SessionId>)>, indexSeen: bool, i: nat)
      requires i < |plan|
      reads `disk, `pins
    {
      match plan[i].0
      case ResponseFile(r, observed) => Collectable(plan[i].0, indexSeen)
      case SessionDir(s) =>
        && !Pinned(SessionPath(s)) && indexSeen && disk.root
        && forall l :: l in LiveLinks(disk, s) ==>
             exists j :: 0 <= j < i && plan[j].0.ResponseFile? && plan[j].0.response == l.1
                         && Collectable(plan[j].0, indexSeen)
    }

    static predicate Gone(d: Disk, t: Target) {
      match t
      case ResponseFile(r, _) => r !in d.records
      case SessionDir(s) => s !in d.sessions
    }

    /** Works through a plan, whatever fails on the way; without a fault all that should go is gone. */
    method ApplyPrune(plan: seq<(Target, Option<SessionId>)>, indexSeen: bool, now: int)
      returns (report: seq<Target>)
      requires Valid()
      modifies `disk, `crashPoints, `faults, `deferred
      ensures Valid()
      ensures faults == old(faults) ==> forall i :: 0 <= i < |plan| && old(Goes(plan, indexSeen, i)) ==>
        Gone(disk, plan[i].0)
      ensures forall t :: t in report ==> Gone(disk, t)
      ensures old(crashPoints) <= crashPoints && old(faults) <= faults
    {
      report := [];
      for i := 0 to |plan|
        invariant Valid() && forall t :: t in report ==> Gone(disk, t)
        invariant disk.root == old(disk.root) && disk.links <= old(disk.links) && disk.sessions <= old(disk.sessions)
        invariant forall r :: r in disk.records ==> r in old(disk.records) && disk.records[r] == old(disk.records)[r]
        invariant faults == old(faults) ==> forall j :: 0 <= j < i && old(Goes(plan, indexSeen, j)) ==>
          Gone(disk, plan[j].0)
        invariant old(crashPoints) <= crashPoints && old(faults) <= faults
      {
        var ok := RemoveRetainedLocked(plan[i].0, plan[i].1, indexSeen, now);
        if ok {
          report := report + [plan[i].0];
        }
      }
    }

    /** A crash loses everything in memory and nothing on disk; a restart begins from there. */
    method Restart()
      requires Valid()
      modifies `pins, `deletedIDs, `orphans, `deferred, `held
      ensures Valid() && pins == map[] && deletedIDs == {} && held == {}
    {
      pins, deletedIDs, orphans, deferred, held := map[], {}, {}, map[], {};
    }

    ghost function PinsOn(p: Path): nat
      reads this
    {
      if p in pins then pins[p] else 0
    }

    /**
     Any interleaving of the sections, in one process or across restarts. A save
     whose caller breaks its part, or a release without a pin, is not a step. A
     response that is deleted while pinned stays deleted while any pin on it remains.
     */
    method Execute(ops: seq<Op>)
      requires Valid()
      modifies this
      ensures Valid() && old(crashPoints) <= crashPoints
      ensures forall p :: PinsOn(p) == PinCount(old(PinsOn(p)), ops, |ops|, p)
      ensures forall r :: old(Buried(r)) && StaysPinned(old(PinsOn(ResponsePath(r))), ops, |ops|, ResponsePath(r)) ==>
                Buried(r) && !Live(disk, r)
    {
      for i := 0 to |ops|
        invariant Valid() && old(crashPoints) <= crashPoints
        invariant forall p :: PinsOn(p) == PinCount(old(PinsOn(p)), ops, i, p)
        invariant forall r :: old(Buried(r)) && StaysPinned(old(PinsOn(ResponsePath(r))), ops, i, ResponsePath(r)) ==>
          Buried(r)
      {
        ExecuteOne(ops[i], i);
      }
    }

    method ExecuteOne(op: Op, now: int)
      requires Valid()
      modifies this
      ensures Valid() && old(crashPoints) <= crashPoints
      ensures forall p :: PinsOn(p) == PinsAfter(old(PinsOn(p)), op, p)
      ensures forall r :: old(Buried(r)) && PinsOn(ResponsePath(r)) > 0 ==> Buried(r)
    {
      match op {
        case OpPin(p) => Pin(p);
        case OpUnpin(p) =>
          if Pinned(p) { Unpin(p); }
        case OpCreate(s) => SessionCreated(s);
        case OpSave(r, session, deleted) =>
          if disk.root && (deleted || session.None? || session.value in held) {
            var _ := SaveResponse(r, session, deleted, now);
          }
        case OpDelete(r) =>
          var _ := DeleteResponse(r, now);
        case OpClear(r, pending) =>
          var _ := ClearInputPending(r, pending, now);
        case OpRemove(target, linkedTo, indexSeen) =>
          var _ := RemoveRetainedLocked(target, linkedTo, indexSeen, now);
        case OpEnsure =>
          var _ := EnsureRetentionLinksLocked();
        case OpRestart => Restart();
      }
    }
  }
}
