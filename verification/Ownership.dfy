/**
 Who owns a connected SDK session, and who owns its retention pins
 (internal/copilotgw/warm_response.go, warm_registry.go, active_registry.go,
 turn_runner.go, response_session.go, real.go, and the connection state of
 internal/httpapi/responses_ws.go).

 A session is held by the request that connected it, parked as a warm session,
 driven by a turn runner, or being torn down. A pin is a release function somebody
 has in a list: a request, a warm session, a runner, or whoever is working through a
 list it took. Each lock section, each release, and each call into the SDK, is one
 step; requests, runners, connections and Stop are interleaved freely.
 */
module Ownership {

  type Session = nat
  type Connection = nat
  type Request = nat
  type Pin = nat

  /** How far Stop has come: not called, draining warm sessions, aborting runners. */
  datatype Stop = NotStopped | Draining | Aborting

  /** Whose list a pin's release function is in. */
  datatype Holder =
    | InRequest(request: Request)
    | InWarm(session: Session)
    | InTeardown(session: Session)
    | InRunner(session: Session)
    | Releasing(session: Session)

  type Owners = set<(Holder, Pin)>

  datatype Gateway = Gateway(
    created: set<Session>,
    connected: set<Session>,
    // Pins: all that were ever taken, whose lists they are in, how often each was released.
    taken: set<Pin>,
    owners: Owners,
    releases: map<Pin, nat>,
    // A request in flight holds these.
    held: set<Session>,
    // Warm sessions: `live` until their flag `disconnected` is set; whoever set it tears the session down.
    live: set<Session>,
    tearing: set<Session>,
    warmRegistry: set<Session>,
    warmClosed: bool,
    // Runners: in their loop, aborted by someone who has yet to disconnect the session, and with `pinsReleased` set.
    running: set<Session>,
    signalled: set<Session>,
    aborting: set<Session>,
    released: set<Session>,
    activeRegistry: set<Session>,
    activeClosed: bool,
    // Stop's snapshots, as far as it has not worked through them.
    stop: Stop,
    stopWarm: set<Session>,
    stopRunners: set<Session>,
    // Pointers to warm sessions: on a connection, carried by a request, dropped and about to be disconnected.
    parked: map<Connection, Session>,
    closed: set<Connection>,
    carried: set<Session>,
    discarding: set<Session>)

  function Start(): Gateway {
    Gateway({}, {}, {}, {}, map[], {}, {}, {}, {}, false, {}, {}, {}, {}, {}, false, NotStopped, {}, {}, map[], {}, {},
            {})
  }

  // ---- Pins ---------------------------------------------------------------------

  function Given(holder: Holder, pins: set<Pin>): Owners {
    set p | p in pins :: (holder, p)
  }

  /** Those of `pins` that are in one list go to another. */
  function Moved(owners: Owners, from: Holder, to: Holder, pins: set<Pin>): Owners {
    (set o | o in owners && !(o.0 == from && o.1 in pins))
      + (set o | o in owners && o.0 == from && o.1 in pins :: (to, o.1))
  }

  predicate HasPins(owners: Owners, holder: Holder) {
    exists o :: o in owners && o.0 == holder
  }

  function Released(g: Gateway, holder: Holder, p: Pin): Gateway {
    if (holder, p) !in g.owners then g
    else g.(owners := g.owners - {(holder, p)},
            releases := g.releases[p := (if p in g.releases then g.releases[p] else 0) + 1])
  }

  function TakePin(g: Gateway, r: Request, p: Pin): Gateway {
    if p in g.taken then g else g.(taken := g.taken + {p}, owners := g.owners + {(InRequest(r), p)})
  }

  /** A pin added to a runner that has released its pins is the caller's to release, at once. */
  function AddPin(g: Gateway, s: Session, r: Request, p: Pin): Gateway {
    if p in g.taken || s !in g.running + g.released then g
    else g.(taken := g.taken + {p}, owners := g.owners + {(if s in g.released then InRequest(r) else InRunner(s), p)})
  }

  // ---- Requests and warm sessions -------------------------------------------------

  function Connect(g: Gateway, s: Session): Gateway {
    if s in g.created then g
    else g.(created := g.created + {s}, connected := g.connected + {s}, held := g.held + {s})
  }

  /** The request fails: it disconnects what it holds. */
  function FailRequest(g: Gateway, s: Session): Gateway {
    if s !in g.held then g else g.(held := g.held - {s}, connected := g.connected - {s})
  }

  /**
   The request parks its session as a warm one and gives it pins of its own; a closed
   registry refuses, and the request tears it down.
   */
  function TrackWarm(g: Gateway, s: Session, r: Request, pins: set<Pin>): Gateway {
    if s !in g.held then g
    else if g.warmClosed then
      g.(held := g.held - {s}, tearing := g.tearing + {s}, owners := Moved(g.owners, InRequest(r), InTeardown(s), pins))
    else
      g.(held := g.held - {s}, live := g.live + {s}, warmRegistry := g.warmRegistry + {s}, carried := g.carried + {s},
         owners := Moved(g.owners, InRequest(r), InWarm(s), pins))
  }

  /** The lock section of Disconnect: the first caller takes the pins and becomes the one who tears down. */
  function FlipDisconnected(g: Gateway, s: Session): Gateway {
    if s !in g.live then g
    else g.(live := g.live - {s}, tearing := g.tearing + {s},
            owners := Moved(g.owners, InWarm(s), InTeardown(s), g.taken))
  }

  /** The teardown first leaves the registry, */
  function Unregister(g: Gateway, s: Session): Gateway {
    if s !in g.tearing then g else g.(warmRegistry := g.warmRegistry - {s})
  }

  /** then releases the pins one by one, */
  function ReleaseTorn(g: Gateway, s: Session, p: Pin): Gateway {
    if s !in g.tearing || s in g.warmRegistry then g else Released(g, InTeardown(s), p)
  }

  /** and disconnects last. */
  function FinishTeardown(g: Gateway, s: Session): Gateway {
    if s !in g.tearing || s in g.warmRegistry || HasPins(g.owners, InTeardown(s)) then g
    else g.(tearing := g.tearing - {s}, connected := g.connected - {s})
  }

  /**
   A request takes the warm session and its pins over, unless it is gone, does not suit it,
   or the registry is closed.
   */
  function UseWarm(g: Gateway, s: Session, r: Request, suits: bool): Gateway {
    if s !in g.carried then g
    else if s !in g.live || !suits || g.warmClosed then
      g.(carried := g.carried - {s}, discarding := g.discarding + {s})
    else
      g.(carried := g.carried - {s}, live := g.live - {s}, warmRegistry := g.warmRegistry - {s}, held := g.held + {s},
         owners := Moved(g.owners, InWarm(s), InRequest(r), g.taken))
  }

  // ---- Runners ----------------------------------------------------------------------

  /**
   The request hands its session to a runner, which takes pins of its own; a closed
   registry refuses, and the session is aborted on the spot and those pins released.
   */
  function StartRunner(g: Gateway, s: Session, own: set<Pin>): Gateway {
    if s !in g.held || own * g.taken != {} then g
    else if g.activeClosed then
      g.(held := g.held - {s}, connected := g.connected - {s}, released := g.released + {s},
         taken := g.taken + own, owners := g.owners + Given(Releasing(s), own))
    else
      g.(held := g.held - {s}, running := g.running + {s}, activeRegistry := g.activeRegistry + {s},
         taken := g.taken + own, owners := g.owners + Given(InRunner(s), own))
  }

  /** Abort first tells the loop, then disconnects the session, once. */
  function SignalAbort(g: Gateway, s: Session): Gateway {
    if s !in g.running || s in g.signalled then g
    else g.(signalled := g.signalled + {s}, aborting := g.aborting + {s})
  }

  function FinishAbort(g: Gateway, s: Session): Gateway {
    if s !in g.aborting then g else g.(aborting := g.aborting - {s}, connected := g.connected - {s})
  }

  /** The loop ends: unless it was aborted it disconnects, then takes the pins out of the runner's list, once. */
  function LeaveLoop(g: Gateway, s: Session): Gateway {
    if s !in g.running || s in g.released then g
    else
      g.(connected := (if s in g.signalled then g.connected else g.connected - {s}), released := g.released + {s},
         owners := Moved(g.owners, InRunner(s), Releasing(s), g.taken))
  }

  /** Only with the pins released does it leave the registry and report that it is closed. */
  function EndLoop(g: Gateway, s: Session): Gateway {
    if s !in g.running || s !in g.released || HasPins(g.owners, Releasing(s)) then g
    else g.(running := g.running - {s}, activeRegistry := g.activeRegistry - {s})
  }

  // ---- The connection's pointer to its warm session ------------------------------

  /**
   Installs a warm session on a connection; what it replaces, or it itself if the connection
   is closed, is dropped.
   */
  function ReplaceWarm(g: Gateway, c: Connection, s: Session): Gateway {
    if s !in g.carried then g
    else
      var previous := if c in g.parked then {g.parked[c]} else {};
      if c in g.closed then
        g.(parked := g.parked - {c}, carried := g.carried - {s}, discarding := g.discarding + previous + {s})
      else
        g.(parked := g.parked[c := s], carried := g.carried - {s}, discarding := g.discarding + (previous - {s}))
  }

  /** A request takes the connection's warm session, if it continues that response; otherwise it is dropped. */
  function TakeWarm(g: Gateway, c: Connection, continues: bool): Gateway {
    if c !in g.parked then g
    else if continues then g.(parked := g.parked - {c}, carried := g.carried + {g.parked[c]})
    else g.(parked := g.parked - {c}, discarding := g.discarding + {g.parked[c]})
  }

  function CloseConnection(g: Gateway, c: Connection): Gateway {
    g.(closed := g.closed + {c}, parked := g.parked - {c},
       discarding := g.discarding + if c in g.parked then {g.parked[c]} else {})
  }

  /** A request gives up a session it carries. */
  function DropCarried(g: Gateway, s: Session): Gateway {
    if s !in g.carried then g else g.(carried := g.carried - {s}, discarding := g.discarding + {s})
  }

  function DisconnectDropped(g: Gateway, s: Session): Gateway {
    if s !in g.discarding then g else FlipDisconnected(g.(discarding := g.discarding - {s}), s)
  }

  // ---- Stop ---------------------------------------------------------------------

  function StopWarmSessions(g: Gateway): Gateway {
    if g.stop != NotStopped then g
    else g.(stop := Draining, warmClosed := true, stopWarm := g.warmRegistry, warmRegistry := {})
  }

  function StopOneWarm(g: Gateway, s: Session): Gateway {
    if s !in g.stopWarm then g else FlipDisconnected(g.(stopWarm := g.stopWarm - {s}), s)
  }

  function StopRunners(g: Gateway): Gateway {
    if g.stop != Draining || g.stopWarm != {} then g
    else g.(stop := Aborting, activeClosed := true, stopRunners := g.activeRegistry)
  }

  /** Stop aborts a runner and waits for its loop. */
  function StopOneRunner(g: Gateway, s: Session): Gateway {
    if s !in g.stopRunners || s in g.running || s in g.aborting then g else g.(stopRunners := g.stopRunners - {s})
  }

  datatype Step =
    | DoTakePin(r: Request, p: Pin) | DoAddPin(s: Session, r: Request, p: Pin) | DoRelease(holder: Holder, p: Pin)
    | DoConnect(s: Session) | DoFail(s: Session) | DoTrack(s: Session, r: Request, pins: set<Pin>)
    | DoFlip(s: Session) | DoUnregister(s: Session) | DoTeardown(s: Session)
    | DoUse(s: Session, r: Request, suits: bool) | DoRun(s: Session, pins: set<Pin>)
    | DoSignal(s: Session) | DoAbort(s: Session) | DoLeave(s: Session) | DoEnd(s: Session)
    | DoReplace(c: Connection, s: Session) | DoTake(c: Connection, continues: bool) | DoClose(c: Connection)
    | DoDrop(s: Session) | DoDiscard(s: Session)
    | DoStopWarm | DoStopOneWarm(s: Session) | DoStopRunners | DoStopOneRunner(s: Session)

  /** Pins are released by whoever has them in hand: not out of a warm session's list or a runner's. */
  function ReleaseOne(g: Gateway, holder: Holder, p: Pin): Gateway {
    match holder
    case InRequest(_) => Released(g, holder, p)
    case Releasing(_) => Released(g, holder, p)
    case InTeardown(s) => ReleaseTorn(g, s, p)
    case _ => g
  }

  function Next(g: Gateway, step: Step): Gateway {
    match step
    case DoTakePin(r, p) => TakePin(g, r, p)
    case DoAddPin(s, r, p) => AddPin(g, s, r, p)
    case DoRelease(holder, p) => ReleaseOne(g, holder, p)
    case DoConnect(s) => Connect(g, s)
    case DoFail(s) => FailRequest(g, s)
    case DoTrack(s, r, pins) => TrackWarm(g, s, r, pins)
    case DoFlip(s) => FlipDisconnected(g, s)
    case DoUnregister(s) => Unregister(g, s)
    case DoTeardown(s) => FinishTeardown(g, s)
    case DoUse(s, r, suits) => UseWarm(g, s, r, suits)
    case DoRun(s, pins) => StartRunner(g, s, pins)
    case DoSignal(s) => SignalAbort(g, s)
    case DoAbort(s) => FinishAbort(g, s)
    case DoLeave(s) => LeaveLoop(g, s)
    case DoEnd(s) => EndLoop(g, s)
    case DoReplace(c, s) => ReplaceWarm(g, c, s)
    case DoTake(c, continues) => TakeWarm(g, c, continues)
    case DoClose(c) => CloseConnection(g, c)
    case DoDrop(s) => DropCarried(g, s)
    case DoDiscard(s) => DisconnectDropped(g, s)
    case DoStopWarm => StopWarmSessions(g)
    case DoStopOneWarm(s) => StopOneWarm(g, s)
    case DoStopRunners => StopRunners(g)
    case DoStopOneRunner(s) => StopOneRunner(g, s)
  }

  function Run(g: Gateway, steps: seq<Step>): Gateway
    decreases |steps|
  {
    if steps == [] then g else Run(Next(g, steps[0]), steps[1..])
  }

  // ---- One owner ------------------------------------------------------------------

  /** A runner owns its session; once its loop has ended, whoever is still aborting it does. */
  function Runners(g: Gateway): set<Session> {
    g.running + g.aborting
  }

  /** Every connected session has exactly one owner, and the sessions in hand are connected. */
  ghost predicate OneOwner(g: Gateway) {
    && g.connected <= g.held + g.live + g.tearing + Runners(g)
    && g.held + g.live + g.tearing <= g.connected
    && g.held !! g.live && g.held !! g.tearing && g.held !! Runners(g)
    && g.live !! g.tearing && g.live !! Runners(g) && g.tearing !! Runners(g)
    && g.held + g.live + g.tearing + Runners(g) <= g.created
  }

  /** What Stop will find: every live warm session and every running runner is listed for it. */
  ghost predicate Listed(g: Gateway) {
    && g.live <= g.warmRegistry + g.stopWarm
    && (g.warmClosed <==> !g.stop.NotStopped?) && (g.warmClosed ==> g.warmRegistry == {})
    && g.running <= g.activeRegistry && g.activeRegistry <= g.running
    && (g.activeClosed <==> g.stop.Aborting?)
    && (g.stop.NotStopped? ==> g.stopWarm == {} && g.stopRunners == {})
    && (g.stop.Aborting? ==> g.stopWarm == {} && g.running <= g.stopRunners)
    && g.aborting <= g.signalled && g.signalled + g.released <= g.created
    && (forall s :: s in g.running && s in g.signalled + g.released && s !in g.aborting ==> s !in g.connected)
    && (g.signalled + g.released !! g.held + g.live + g.tearing)
  }

  /** No live warm session is lost from sight: a connection, a request or whoever dropped it still points to it. */
  ghost predicate InSight(g: Gateway) {
    && (forall s :: s in g.live ==> s in g.carried || s in g.discarding || Parked(g, s))
    && (forall c :: c in g.parked ==> c !in g.closed)
  }

  ghost predicate Parked(g: Gateway, s: Session) {
    exists c :: c in g.parked && g.parked[c] == s
  }

  // ---- Every pin once ---------------------------------------------------------------

  ghost predicate Owned(owners: Owners, p: Pin) {
    exists h :: (h, p) in owners
  }

  /** A pin is in one list and was never released, or in none and was released once. */
  ghost predicate Once(owners: Owners, taken: set<Pin>, releases: map<Pin, nat>) {
    && (forall a, b, p :: (a, p) in owners && (b, p) in owners ==> a == b)
    && (forall h, p :: (h, p) in owners ==> p in taken && p !in releases)
    && (forall p :: p in taken ==> Owned(owners, p) || p in releases)
    && (forall p :: p in releases ==> p in taken && releases[p] == 1)
  }

  datatype Homes = Homes(live: set<Session>, tearing: set<Session>, running: set<Session>, released: set<Session>)

  function HomesOf(g: Gateway): Homes {
    Homes(g.live, g.tearing, g.running, g.released)
  }

  /** The list of a session's owner is there only while that owner is. */
  predicate HomeOf(homes: Homes, h: Holder) {
    match h
    case InRequest(_) => true
    case InWarm(s) => s in homes.live
    case InTeardown(s) => s in homes.tearing
    case InRunner(s) => s in homes.running && s !in homes.released
    case Releasing(s) => s in homes.released
  }

  ghost predicate AtHome(owners: Owners, homes: Homes) {
    forall h, p :: (h, p) in owners ==> HomeOf(homes, h)
  }

  ghost predicate PinsOnce(g: Gateway) {
    Once(g.owners, g.taken, g.releases) && AtHome(g.owners, HomesOf(g))
  }

  ghost predicate Inv(g: Gateway) {
    OneOwner(g) && PinsOnce(g) && Listed(g) && InSight(g)
  }

  lemma MovedMembers(owners: Owners, from: Holder, to: Holder, pins: set<Pin>, h: Holder, p: Pin)
    ensures (h, p) in Moved(owners, from, to, pins)
       <==> ((h, p) in owners && !(h == from && p in pins)) || (h == to && (from, p) in owners && p in pins)
  {
    if h == to && (from, p) in owners && p in pins {
      assert (from, p).0 == from && (from, p).1 == p;
    }
  }

  lemma OnceMoved(owners: Owners, taken: set<Pin>, releases: map<Pin, nat>, from: Holder, to: Holder, pins: set<Pin>)
    requires Once(owners, taken, releases)
    ensures Once(Moved(owners, from, to, pins), taken, releases)
  {
    hide Moved;
    var moved := Moved(owners, from, to, pins);
    forall h, p ensures (h, p) in moved
       <==> ((h, p) in owners && !(h == from && p in pins)) || (h == to && (from, p) in owners && p in pins) {
      MovedMembers(owners, from, to, pins, h, p);
    }
    forall p: Pin | Owned(owners, p) ensures Owned(moved, p) {
      var h :| (h, p) in owners;
      assert (h, p) in moved || (to, p) in moved;
    }
  }

  /** A whole list moves, or some of a request's; the other lists keep their homes. */
  lemma HomeMoved(g: Gateway, homes: Homes, from: Holder, to: Holder, pins: set<Pin>)
    requires PinsOnce(g) && (from.InRequest? || pins == g.taken) && HomeOf(homes, to)
    requires forall x: Holder :: x != from && HomeOf(HomesOf(g), x) ==> HomeOf(homes, x)
    ensures AtHome(Moved(g.owners, from, to, pins), homes)
  {
    hide Moved;
    var moved := Moved(g.owners, from, to, pins);
    forall h, p | (h, p) in moved ensures HomeOf(homes, h) {
      MovedMembers(g.owners, from, to, pins, h, p);
    }
  }

  lemma HomeGiven(g: Gateway, homes: Homes, to: Holder, pins: set<Pin>)
    requires PinsOnce(g) && HomeOf(homes, to)
    requires forall x: Holder :: HomeOf(HomesOf(g), x) ==> HomeOf(homes, x)
    ensures AtHome(g.owners + Given(to, pins), homes)
  {
    hide Once;
  }

  lemma OnceTaken(owners: Owners, taken: set<Pin>, releases: map<Pin, nat>, holder: Holder, pins: set<Pin>)
    requires Once(owners, taken, releases) && pins * taken == {}
    ensures Once(owners + Given(holder, pins), taken + pins, releases)
  {
    var more := owners + Given(holder, pins);
    forall h: Holder, p: Pin ensures (h, p) in more <==> (h, p) in owners || (h == holder && p in pins) {
      if p in pins { assert (holder, p) in Given(holder, pins); }
    }
    forall p | p in pins ensures p !in taken {
      assert p !in pins * taken;
    }
    forall p: Pin | p in taken + pins ensures Owned(more, p) || p in releases {
      if p in pins {
        assert (holder, p) in more;
      } else if Owned(owners, p) {
        var h :| (h, p) in owners;
        assert (h, p) in more;
      }
    }
  }

  lemma OnceReleased(g: Gateway, holder: Holder, p: Pin)
    requires Once(g.owners, g.taken, g.releases)
    ensures var h := Released(g, holder, p); Once(h.owners, h.taken, h.releases)
  {
    var h := Released(g, holder, p);
    forall q | q in g.taken ensures Owned(h.owners, q) || q in h.releases {
      if Owned(g.owners, q) && q != p {
        var o :| (o, q) in g.owners;
        assert (o, q) in h.owners;
      }
    }
  }

  lemma InvStart()
    ensures Inv(Start())
  {
  }

  /** Pointers that stay where they are, or are dropped or carried off, keep what is live in sight. */
  lemma SightKept(g: Gateway, h: Gateway)
    requires InSight(g) && h.parked == g.parked && h.closed == g.closed
    requires forall t :: t in h.live ==>
      t in h.carried + h.discarding || (t in g.live && t !in g.carried && t !in g.discarding)
    ensures InSight(h)
  {
    forall t | t in h.live && t !in h.carried + h.discarding ensures Parked(h, t) {
      assert Parked(g, t);
    }
  }

  lemma InvTakePin(g: Gateway, r: Request, p: Pin)
    requires Inv(g)
    ensures Inv(TakePin(g, r, p))
  {
    hide Once, AtHome, InSight;
    SightKept(g, TakePin(g, r, p));
    if p !in g.taken {
      assert Given(InRequest(r), {p}) == {(InRequest(r), p)};
      OnceTaken(g.owners, g.taken, g.releases, InRequest(r), {p});
      HomeGiven(g, HomesOf(g), InRequest(r), {p});
    }
  }

  lemma InvAddPin(g: Gateway, s: Session, r: Request, p: Pin)
    requires Inv(g)
    ensures Inv(AddPin(g, s, r, p))
  {
    hide Once, AtHome, InSight;
    SightKept(g, AddPin(g, s, r, p));
    if p !in g.taken && s in g.running + g.released {
      var to := if s in g.released then InRequest(r) else InRunner(s);
      assert Given(to, {p}) == {(to, p)};
      OnceTaken(g.owners, g.taken, g.releases, to, {p});
      HomeGiven(g, HomesOf(g), to, {p});
    }
  }

  lemma InvRelease(g: Gateway, holder: Holder, p: Pin)
    requires Inv(g)
    ensures Inv(Released(g, holder, p))
  {
    hide Once, InSight;
    SightKept(g, Released(g, holder, p));
    OnceReleased(g, holder, p);
  }

  lemma InvConnect(g: Gateway, s: Session)
    requires Inv(g)
    ensures Inv(Connect(g, s)) && Inv(FailRequest(g, s))
  {
    hide Once, AtHome, InSight;
    SightKept(g, Connect(g, s));
    SightKept(g, FailRequest(g, s));
  }

  lemma InvTrack(g: Gateway, s: Session, r: Request, pins: set<Pin>)
    requires Inv(g)
    ensures Inv(TrackWarm(g, s, r, pins))
  {
    hide Once, AtHome, Moved, InSight;
    var h := TrackWarm(g, s, r, pins);
    SightKept(g, h);
    if s in g.held {
      var to := if g.warmClosed then InTeardown(s) else InWarm(s);
      OnceMoved(g.owners, g.taken, g.releases, InRequest(r), to, pins);
      HomeMoved(g, HomesOf(h), InRequest(r), to, pins);
    }
  }

  lemma InvFlip(g: Gateway, s: Session)
    requires Inv(g)
    ensures Inv(FlipDisconnected(g, s))
  {
    hide Once, AtHome, Moved, InSight;
    var h := FlipDisconnected(g, s);
    SightKept(g, h);
    if s in g.live {
      OnceMoved(g.owners, g.taken, g.releases, InWarm(s), InTeardown(s), g.taken);
      HomeMoved(g, HomesOf(h), InWarm(s), InTeardown(s), g.taken);
    }
  }

  lemma InvTeardown(g: Gateway, s: Session)
    requires Inv(g)
    ensures Inv(Unregister(g, s)) && Inv(FinishTeardown(g, s))
  {
    hide Once, InSight;
    SightKept(g, Unregister(g, s));
    SightKept(g, FinishTeardown(g, s));
    assert forall h, p :: (h, p) in g.owners ==> (h, p).0 == h;
  }

  lemma InvUse(g: Gateway, s: Session, r: Request, suits: bool)
    requires Inv(g)
    ensures Inv(UseWarm(g, s, r, suits))
  {
    hide Once, AtHome, Moved, InSight;
    var h := UseWarm(g, s, r, suits);
    SightKept(g, h);
    if h.owners != g.owners {
      OnceMoved(g.owners, g.taken, g.releases, InWarm(s), InRequest(r), g.taken);
      HomeMoved(g, HomesOf(h), InWarm(s), InRequest(r), g.taken);
    }
    if h.live != g.live {
      HomeMoved(g, HomesOf(h), InWarm(s), InRequest(r), g.taken);
    }
  }

  lemma StartRunnerHandsOver(g: Gateway, s: Session, own: set<Pin>)
    requires OneOwner(g) && Listed(g)
    ensures OneOwner(StartRunner(g, s, own)) && Listed(StartRunner(g, s, own))
  {
    hide Given;
  }

  lemma InvStartRunner(g: Gateway, s: Session, own: set<Pin>)
    requires Inv(g)
    ensures Inv(StartRunner(g, s, own))
  {
    hide Once, AtHome, Given, InSight;
    var h := StartRunner(g, s, own);
    StartRunnerHandsOver(g, s, own);
    SightKept(g, h);
    if s in g.held && own * g.taken == {} {
      var to := if g.activeClosed then Releasing(s) else InRunner(s);
      OnceTaken(g.owners, g.taken, g.releases, to, own);
      HomeGiven(g, HomesOf(h), to, own);
    }
  }

  lemma InvAbort(g: Gateway, s: Session)
    requires Inv(g)
    ensures Inv(SignalAbort(g, s)) && Inv(FinishAbort(g, s))
  {
    hide Once, AtHome, InSight;
    SightKept(g, SignalAbort(g, s));
    SightKept(g, FinishAbort(g, s));
  }

  lemma InvAwait(g: Gateway, s: Session)
    requires Inv(g)
    ensures Inv(StopOneRunner(g, s))
  {
    hide Once, AtHome, InSight;
    SightKept(g, StopOneRunner(g, s));
  }

  lemma InvLeaveLoop(g: Gateway, s: Session)
    requires Inv(g)
    ensures Inv(LeaveLoop(g, s))
  {
    hide Once, AtHome, Moved, InSight;
    var h := LeaveLoop(g, s);
    SightKept(g, h);
    if s in g.running && s !in g.released {
      OnceMoved(g.owners, g.taken, g.releases, InRunner(s), Releasing(s), g.taken);
      HomeMoved(g, HomesOf(h), InRunner(s), Releasing(s), g.taken);
    }
  }

  lemma InvEndLoop(g: Gateway, s: Session)
    requires Inv(g)
    ensures Inv(EndLoop(g, s))
  {
    hide Once, InSight;
    SightKept(g, EndLoop(g, s));
    assert forall h, p :: (h, p) in g.owners ==> (h, p).0 == h;
  }

  lemma InvDrop(g: Gateway, s: Session)
    requires Inv(g)
    ensures Inv(DropCarried(g, s))
  {
    hide Once, AtHome, InSight;
    SightKept(g, DropCarried(g, s));
  }

  lemma InvDisconnect(g: Gateway, s: Session)
    requires Inv(g)
    ensures Inv(DisconnectDropped(g, s)) && Inv(StopOneWarm(g, s))
  {
    hide Once, AtHome, Moved, InSight;
    InvFlip(g, s);
    SightKept(g, DisconnectDropped(g, s));
    SightKept(g, StopOneWarm(g, s));
  }

  /** A pointer moves from place to place but is never dropped without a trace. */
  lemma ConnectionsKeepInv(g: Gateway, c: Connection, s: Session, continues: bool)
    requires Inv(g)
    ensures Inv(ReplaceWarm(g, c, s)) && Inv(TakeWarm(g, c, continues)) && Inv(CloseConnection(g, c))
  {
    hide Once, AtHome;
    var replaced, taken, closed := ReplaceWarm(g, c, s), TakeWarm(g, c, continues), CloseConnection(g, c);
    if s in g.carried && c !in g.closed { assert replaced.parked[c] == s; }
    forall t | t in g.live && Parked(g, t)
      ensures (Parked(replaced, t) || t in replaced.discarding)
        && (Parked(taken, t) || t in taken.carried + taken.discarding)
           && (Parked(closed, t) || t in closed.discarding) {
      var d :| d in g.parked && g.parked[d] == t;
      if d != c {
        assert d in replaced.parked && replaced.parked[d] == t;
        assert d in taken.parked && taken.parked[d] == t;
        assert d in closed.parked && closed.parked[d] == t;
      }
    }
  }

  lemma InvStop(g: Gateway)
    requires Inv(g)
    ensures Inv(StopWarmSessions(g)) && Inv(StopRunners(g))
  {
    hide Once, AtHome, InSight;
    SightKept(g, StopWarmSessions(g));
    SightKept(g, StopRunners(g));
  }

  lemma InvStep(g: Gateway, step: Step)
    requires Inv(g)
    ensures Inv(Next(g, step))
  {
    hide Inv, TakePin, AddPin, Released, Connect, FailRequest, TrackWarm, FlipDisconnected, Unregister, FinishTeardown,
         UseWarm, StartRunner, SignalAbort, FinishAbort, LeaveLoop, EndLoop, ReplaceWarm, TakeWarm, CloseConnection,
           DropCarried,
         DisconnectDropped, StopWarmSessions, StopOneWarm, StopRunners, StopOneRunner;
    match step {
      case DoTakePin(r, p) => InvTakePin(g, r, p);
      case DoAddPin(s, r, p) => InvAddPin(g, s, r, p);
      case DoRelease(holder, p) => InvRelease(g, holder, p);
      case DoConnect(s) => InvConnect(g, s);
      case DoFail(s) => InvConnect(g, s);
      case DoTrack(s, r, pins) => InvTrack(g, s, r, pins);
      case DoFlip(s) => InvFlip(g, s);
      case DoUnregister(s) => InvTeardown(g, s);
      case DoTeardown(s) => InvTeardown(g, s);
      case DoUse(s, r, suits) => InvUse(g, s, r, suits);
      case DoRun(s, pins) => InvStartRunner(g, s, pins);
      case DoSignal(s) => InvAbort(g, s);
      case DoAbort(s) => InvAbort(g, s);
      case DoLeave(s) => InvLeaveLoop(g, s);
      case DoEnd(s) => InvEndLoop(g, s);
      case DoReplace(c, s) => ConnectionsKeepInv(g, c, s, true);
      case DoTake(c, continues) => ConnectionsKeepInv(g, c, 0, continues);
      case DoClose(c) => ConnectionsKeepInv(g, c, 0, true);
      case DoDrop(s) => InvDrop(g, s);
      case DoDiscard(s) => InvDisconnect(g, s);
      case DoStopWarm => InvStop(g);
      case DoStopOneWarm(s) => InvDisconnect(g, s);
      case DoStopRunners => InvStop(g);
      case DoStopOneRunner(s) => InvAwait(g, s);
    }
  }

  lemma {:induction false} InvRun(g: Gateway, steps: seq<Step>)
    requires Inv(g)
    ensures Inv(Run(g, steps))
    decreases |steps|
  {
    hide Inv, Next;
    if steps != [] {
      InvStep(g, steps[0]);
      InvRun(Next(g, steps[0]), steps[1..]);
    }
  }

  // ---- What follows ------------------------------------------------------------------

  /** In every run, a connected session has exactly one of the four owners. */
  lemma ExactlyOneOwner(steps: seq<Step>, s: Session)
    ensures var g := Run(Start(), steps);
            s in g.connected ==>
              (if s in g.held then 1 else 0) + (if s in g.live then 1 else 0)
              + (if s in g.tearing then 1 else 0) + (if s in Runners(g) then 1 else 0) == 1
  {
    hide PinsOnce;
    InvStart();
    InvRun(Start(), steps);
  }

  /**
   In every run, at every moment: a pin not yet released is in exactly one list, and a
   released one in none, for good.
   */
  lemma EveryPinOnce(steps: seq<Step>, p: Pin)
    ensures var g := Run(Start(), steps);
            && (p in g.taken && p !in g.releases ==>
                exists h :: (h, p) in g.owners && forall x :: (x, p) in g.owners ==> x == h)
            && (p in g.releases ==> g.releases[p] == 1 && forall x :: (x, p) !in g.owners)
  {
    InvStart();
    InvRun(Start(), steps);
    var g := Run(Start(), steps);
    if p in g.taken && p !in g.releases {
      assert Owned(g.owners, p);
    }
  }

  ghost predicate StopFinished(g: Gateway) {
    g.stop.Aborting? && g.stopRunners == {}
  }

  /** Teardowns and requests in flight are over, with the releases they have in hand. */
  ghost predicate Quiet(g: Gateway) {
    && g.held == {} && g.tearing == {} && g.aborting == {}
    && forall h, p :: (h, p) in g.owners ==> !h.InRequest? && !h.Releasing?
  }

  /**
   Once Stop has finished and what was in flight is over, nothing is connected and every pin
   ever taken was released once.
   */
  lemma StopLeavesNothing(steps: seq<Step>)
    ensures var g := Run(Start(), steps);
            StopFinished(g) && Quiet(g) ==>
              && g.connected == {} && g.owners == {}
              && forall p :: p in g.taken ==> p in g.releases && g.releases[p] == 1
  {
    InvStart();
    InvRun(Start(), steps);
    var g := Run(Start(), steps);
    if StopFinished(g) && Quiet(g) {
      assert g.live == {} && g.running == {};
      forall o ensures o !in g.owners { assert o == (o.0, o.1); }
      assert forall p :: p in g.taken ==> !Owned(g.owners, p);
    }
  }

  /** Even without Stop: once connections are closed and requests are over, no warm session is left alive. */
  lemma ClosedConnectionsLeaveNoWarmSession(steps: seq<Step>)
    ensures var g := Run(Start(), steps);
            (forall c :: c in g.parked ==> c in g.closed) && g.carried == {} && g.discarding == {} ==> g.live == {}
  {
    InvStart();
    InvRun(Start(), steps);
    var g := Run(Start(), steps);
    if forall c :: c in g.parked ==> c in g.closed {
      assert g.parked == map[];
    }
  }

  /** After Stop has begun no warm session changes hands; it stays where Stop will find it. */
  lemma NoUseAfterStop(g: Gateway, s: Session, r: Request, suits: bool)
    requires Inv(g) && !g.stop.NotStopped?
    ensures UseWarm(g, s, r, suits).held == g.held && UseWarm(g, s, r, suits).live == g.live
    ensures s in g.live ==> s in g.stopWarm
  {
  }

  /** Nobody else owns what a request holds, so nobody disconnects it under the request. */
  lemma HeldSessionsStayConnected(g: Gateway, s: Session, step: Step)
    requires Inv(g) && s in g.held && step != DoFail(s) && !(step.DoRun? && step.s == s)
      && !(step.DoTrack? && step.s == s)
    ensures s in Next(g, step).held && s in Next(g, step).connected
  {
  }

  // ---- The registries and the connection state as they run ------------------------------

  /** The gateway's registry of warm sessions. */
  class WarmSessionRegistry {
    var sessions: set<Session>
    var closed: bool

    constructor ()
      ensures sessions == {} && !closed
    {
      sessions, closed := {}, false;
    }

    method Add(s: Session) returns (ok: bool)
      modifies this
      ensures ok == !old(closed) && closed == old(closed)
      ensures sessions == if ok then old(sessions) + {s} else old(sessions)
    {
      if closed {
        return false;
      }
      sessions := sessions + {s};
      ok := true;
    }

    method Remove(s: Session)
      modifies `sessions
      ensures sessions == old(sessions) - {s}
    {
      sessions := sessions - {s};
    }

    method Release(s: Session) returns (ok: bool)
      modifies `sessions
      ensures ok == !closed
      ensures sessions == if ok then old(sessions) - {s} else old(sessions)
    {
      if closed {
        return false;
      }
      sessions := sessions - {s};
      ok := true;
    }

    method CloseAndSnapshot() returns (snapshot: set<Session>)
      modifies this
      ensures closed && sessions == {} && snapshot == old(sessions)
    {
      closed := true;
      snapshot := sessions;
      sessions := {};
    }
  }

  class ActiveRunnerRegistry {
    var runners: set<Session>
    var closed: bool

    constructor ()
      ensures runners == {} && !closed
    {
      runners, closed := {}, false;
    }

    method Add(s: Session) returns (ok: bool)
      modifies this
      ensures ok == !old(closed) && closed == old(closed)
      ensures runners == if ok then old(runners) + {s} else old(runners)
    {
      if closed {
        return false;
      }
      runners := runners + {s};
      ok := true;
    }

    method Remove(s: Session)
      modifies `runners
      ensures runners == old(runners) - {s}
    {
      runners := runners - {s};
    }

    /** Runners leave the registry themselves, when their loops end. */
    method CloseAndSnapshot() returns (snapshot: set<Session>)
      modifies this
      ensures closed && runners == old(runners) == snapshot
    {
      closed := true;
      snapshot := runners;
    }
  }

  /**
   The gateway in action: the two registries, and every other holder of sessions and
   of pins. Each method is one step of the model.
   */
  class RealGateway {
    const warm: WarmSessionRegistry
    const active: ActiveRunnerRegistry
    var created: set<Session>
    var connected: set<Session>
    var taken: set<Pin>
    var owners: Owners
    ghost var releases: map<Pin, nat>
    var held: set<Session>
    var live: set<Session>
    var tearing: set<Session>
    var running: set<Session>
    var signalled: set<Session>
    var aborting: set<Session>
    var released: set<Session>
    var stop: Stop
    var stopWarm: set<Session>
    var stopRunners: set<Session>
    var parked: map<Connection, Session>
    var closed: set<Connection>
    var carried: set<Session>
    var discarding: set<Session>

    ghost function State(): Gateway
      reads this, warm, active
    {
      Gateway(created, connected, taken, owners, releases, held, live, tearing, warm.sessions, warm.closed,
              running, signalled, aborting, released, active.runners, active.closed,
              stop, stopWarm, stopRunners, parked, closed, carried, discarding)
    }

    constructor ()
      ensures State() == Start() && fresh(warm) && fresh(active)
    {
      warm := new WarmSessionRegistry();
      active := new ActiveRunnerRegistry();
      created, connected, taken, owners, releases := {}, {}, {}, {}, map[];
      held, live, tearing, running, signalled, aborting, released := {}, {}, {}, {}, {}, {}, {};
      stop, stopWarm, stopRunners := NotStopped, {}, {};
      parked, closed, carried, discarding := map[], {}, {}, {};
    }

    /** A request pins a record or a session. */
    method PinForRequest(r: Request, p: Pin)
      requires p !in taken
      modifies `taken, `owners
      ensures State() == TakePin(old(State()), r, p)
    {
      taken := taken + {p};
      owners := owners + {(InRequest(r), p)};
    }

    /** A pin for a runner: into its list, or straight back if the runner has released its pins. */
    method AddPinTo(s: Session, r: Request, p: Pin)
      requires p !in taken && s in running + released
      modifies `taken, `owners
      ensures State() == AddPin(old(State()), s, r, p)
    {
      taken := taken + {p};
      if s in released {
        owners := owners + {(InRequest(r), p)};
        return;
      }
      owners := owners + {(InRunner(s), p)};
    }

    /** Calls one release function out of a list somebody is working through. */
    method ReleasePin(holder: Holder, p: Pin)
      requires (holder, p) in owners
      modifies `owners, `releases
      ensures State() == Released(old(State()), holder, p)
    {
      owners := owners - {(holder, p)};
      releases := releases[p := (if p in releases then releases[p] else 0) + 1];
    }

    method ConnectSession(s: Session)
      requires s !in created
      modifies `created, `connected, `held
      ensures State() == Connect(old(State()), s)
    {
      created, connected, held := created + {s}, connected + {s}, held + {s};
    }

    method Fail(s: Session)
      requires s in held
      modifies `connected, `held
      ensures State() == FailRequest(old(State()), s)
    {
      held := held - {s};
      connected := connected - {s};
    }

    /** Parks a session the request holds, or tears it down if the registry is closed. */
    method TrackWarmSession(s: Session, r: Request, pins: set<Pin>) returns (ok: bool)
      requires s in held
      modifies `held, `live, `carried, `tearing, `owners, warm
      ensures State() == TrackWarm(old(State()), s, r, pins) && ok == !old(warm.closed)
    {
      hide Moved, Given;
      ok := warm.Add(s);
      held := held - {s};
      if ok {
        live := live + {s};
        carried := carried + {s};
        owners := Moved(owners, InRequest(r), InWarm(s), pins);
      } else {
        tearing := tearing + {s};
        owners := Moved(owners, InRequest(r), InTeardown(s), pins);
      }
    }

    method Disconnect(s: Session)
      modifies `live, `tearing, `owners
      ensures State() == FlipDisconnected(old(State()), s)
    {
      hide Moved, Given;
      if s !in live {
        return;
      }
      live := live - {s};
      tearing := tearing + {s};
      owners := Moved(owners, InWarm(s), InTeardown(s), taken);
    }

    method LeaveRegistry(s: Session)
      requires s in tearing
      modifies warm
      ensures State() == Unregister(old(State()), s)
    {
      warm.Remove(s);
    }

    /** The last section of a teardown, with its pins released. */
    method TearDown(s: Session)
      requires s in tearing && s !in warm.sessions && !HasPins(owners, InTeardown(s))
      modifies `tearing, `connected
      ensures State() == FinishTeardown(old(State()), s)
    {
      connected := connected - {s};
      tearing := tearing - {s};
    }

    /** A request that carries a warm session asks to take it over. */
    method Use(s: Session, r: Request, suits: bool) returns (ok: bool)
      requires s in carried
      modifies `carried, `discarding, `live, `held, `owners, warm
      ensures State() == UseWarm(old(State()), s, r, suits)
      ensures ok <==> s in old(live) && suits && !old(warm.closed)
    {
      hide Moved, Given;
      ok := s in live && suits;
      if ok {
        ok := warm.Release(s);
      }
      if !ok {
        GiveUp(s);
        return;
      }
      carried := carried - {s};
      live := live - {s};
      held := held + {s};
      owners := Moved(owners, InWarm(s), InRequest(r), taken);
    }

    /** Starts a runner on a session the request holds, or aborts it if the registry is closed. */
    method NewTurnRunner(s: Session, own: set<Pin>) returns (ok: bool)
      requires s in held && own * taken == {}
      modifies `held, `taken, `running, `connected, `released, `owners, active
      ensures State() == StartRunner(old(State()), s, own) && ok == !old(active.closed)
    {
      hide Given, FlipDisconnected;
      ok := active.Add(s);
      held := held - {s};
      taken := taken + own;
      if ok {
        running := running + {s};
        owners := owners + Given(InRunner(s), own);
      } else {
        connected := connected - {s};
        released := released + {s};
        owners := owners + Given(Releasing(s), own);
      }
    }

    method Abort(s: Session)
      requires s in running
      modifies `signalled, `aborting
      ensures State() == SignalAbort(old(State()), s)
    {
      if s in signalled {
        return;
      }
      signalled := signalled + {s};
      aborting := aborting + {s};
    }

    method DisconnectAborted(s: Session)
      requires s in aborting
      modifies `aborting, `connected
      ensures State() == FinishAbort(old(State()), s)
    {
      aborting := aborting - {s};
      connected := connected - {s};
    }

    /** The runner's loop takes the pins out of its list, once. */
    method ReleasePins(s: Session)
      requires s in running
      modifies `connected, `released, `owners
      ensures State() == LeaveLoop(old(State()), s)
    {
      hide Moved, Given;
      if s in released {
        return;
      }
      if s !in signalled {
        connected := connected - {s};
      }
      released := released + {s};
      owners := Moved(owners, InRunner(s), Releasing(s), taken);
    }

    method LoopEnds(s: Session)
      requires s in running && s in released && !HasPins(owners, Releasing(s))
      modifies `running, active
      ensures State() == EndLoop(old(State()), s)
    {
      active.Remove(s);
      running := running - {s};
    }

    method ReplaceWarmOn(c: Connection, s: Session)
      requires s in carried
      modifies `parked, `carried, `discarding
      ensures State() == ReplaceWarm(old(State()), c, s)
    {
      var previous := if c in parked then {parked[c]} else {};
      carried := carried - {s};
      if c in closed {
        parked := parked - {c};
        discarding := discarding + previous + {s};
      } else {
        parked := parked[c := s];
        discarding := discarding + (previous - {s});
      }
    }

    method TakeWarmFrom(c: Connection, continues: bool)
      modifies `parked, `carried, `discarding
      ensures State() == TakeWarm(old(State()), c, continues)
    {
      if c !in parked {
        return;
      }
      if continues {
        carried := carried + {parked[c]};
      } else {
        discarding := discarding + {parked[c]};
      }
      parked := parked - {c};
    }

    method CloseState(c: Connection)
      modifies `parked, `closed, `discarding
      ensures State() == CloseConnection(old(State()), c)
    {
      closed := closed + {c};
      if c in parked {
        discarding := discarding + {parked[c]};
      }
      parked := parked - {c};
    }

    method GiveUp(s: Session)
      requires s in carried
      modifies `carried, `discarding
      ensures State() == DropCarried(old(State()), s)
    {
      carried := carried - {s};
      discarding := discarding + {s};
    }

    method DisconnectGivenUp(s: Session)
      requires s in discarding
      modifies `discarding, `live, `tearing, `owners
      ensures State() == DisconnectDropped(old(State()), s)
    {
      discarding := discarding - {s};
      Disconnect(s);
    }

    /** Stop begins with the warm sessions, so that none can slip away into a runner while it works. */
    method CloseWarmSessions()
      requires stop == NotStopped
      modifies `stopWarm, `stop, warm
      ensures State() == StopWarmSessions(old(State()))
    {
      stopWarm := warm.CloseAndSnapshot();
      stop := Draining;
    }

    method DrainWarmSession(s: Session)
      requires s in stopWarm
      modifies `stopWarm, `live, `tearing, `owners
      ensures State() == StopOneWarm(old(State()), s)
    {
      stopWarm := stopWarm - {s};
      Disconnect(s);
    }

    /** Only with the warm sessions drained does Stop turn to the runners. */
    method CloseRunners()
      requires stop == Draining && stopWarm == {}
      modifies `stopRunners, `stop, active
      ensures State() == StopRunners(old(State()))
    {
      stopRunners := active.CloseAndSnapshot();
      stop := Aborting;
    }

    method AwaitRunner(s: Session)
      requires s in stopRunners && s !in running && s !in aborting
      modifies `stopRunners
      ensures State() == StopOneRunner(old(State()), s)
    {
      stopRunners := stopRunners - {s};
    }

    /** One step of anybody's; a step that is not enabled does nothing. */
    method ExecuteOne(step: Step)
      modifies this, warm, active
      ensures State() == Next(old(State()), step)
    {
      hide Moved, Given, FlipDisconnected;
      match step {
        case DoTakePin(r, p) => if p !in taken { PinForRequest(r, p); }
        case DoAddPin(s, r, p) => if p !in taken && s in running + released { AddPinTo(s, r, p); }
        case DoRelease(holder, p) =>
          if (holder, p) in owners && !holder.InWarm? && !holder.InRunner?
             && (holder.InTeardown? ==> holder.session in tearing && holder.session !in warm.sessions) {
            ReleasePin(holder, p);
          }
        case DoConnect(s) => if s !in created { ConnectSession(s); }
        case DoFail(s) => if s in held { Fail(s); }
        case DoTrack(s, r, pins) => if s in held { var _ := TrackWarmSession(s, r, pins); }
        case DoFlip(s) => Disconnect(s);
        case DoUnregister(s) => if s in tearing { LeaveRegistry(s); }
        case DoTeardown(s) => if s in tearing && s !in warm.sessions && !HasPins(owners, InTeardown(s)) { TearDown(s); }
        case DoUse(s, r, suits) => if s in carried { var _ := Use(s, r, suits); }
        case DoRun(_, _) | DoSignal(_) | DoAbort(_) | DoLeave(_) | DoEnd(_) => ExecuteRunner(step);
        case DoReplace(_, _) | DoTake(_, _) | DoClose(_) | DoDrop(_) | DoDiscard(_) => ExecuteParking(step);
        case DoStopWarm | DoStopOneWarm(_) | DoStopRunners | DoStopOneRunner(_) => ExecuteStop(step);
      }
    }

    method ExecuteRunner(step: Step)
      requires step.DoRun? || step.DoSignal? || step.DoAbort? || step.DoLeave? || step.DoEnd?
      modifies this, active
      ensures State() == Next(old(State()), step)
    {
      hide Moved, Given;
      match step {
        case DoRun(s, pins) => if s in held && pins * taken == {} { var _ := NewTurnRunner(s, pins); }
        case DoSignal(s) => if s in running { Abort(s); }
        case DoAbort(s) => if s in aborting { DisconnectAborted(s); }
        case DoLeave(s) => if s in running { ReleasePins(s); }
        case DoEnd(s) => if s in running && s in released && !HasPins(owners, Releasing(s)) { LoopEnds(s); }
      }
    }

    method ExecuteParking(step: Step)
      requires step.DoReplace? || step.DoTake? || step.DoClose? || step.DoDrop? || step.DoDiscard?
      modifies this, warm, active
      ensures State() == Next(old(State()), step)
    {
      hide Moved, Given, FlipDisconnected;
      match step {
        case DoReplace(c, s) => if s in carried { ReplaceWarmOn(c, s); }
        case DoTake(c, continues) => TakeWarmFrom(c, continues);
        case DoClose(c) => CloseState(c);
        case DoDrop(s) => if s in carried { GiveUp(s); }
        case DoDiscard(s) => if s in discarding { DisconnectGivenUp(s); }
      }
    }

    method ExecuteStop(step: Step)
      requires step.DoStopWarm? || step.DoStopOneWarm? || step.DoStopRunners? || step.DoStopOneRunner?
      modifies this, warm, active
      ensures State() == Next(old(State()), step)
    {
      hide Moved, Given, FlipDisconnected;
      match step {
        case DoStopWarm => if stop == NotStopped { CloseWarmSessions(); }
        case DoStopOneWarm(s) => if s in stopWarm { DrainWarmSession(s); }
        case DoStopRunners => if stop == Draining && stopWarm == {} { CloseRunners(); }
        case DoStopOneRunner(s) => if s in stopRunners && s !in running && s !in aborting { AwaitRunner(s); }
      }
    }

    /** Any interleaving at all: the gateway ends where the model says, so it satisfies the invariant. */
    method Execute(steps: seq<Step>)
      requires Inv(State())
      modifies this, warm, active
      ensures State() == Run(old(State()), steps) && Inv(State())
    {
      hide Inv, Next;
      ghost var before := State();
      for i := 0 to |steps|
        invariant Run(before, steps) == Run(State(), steps[i..]) && Inv(State())
      {
        InvStep(State(), steps[i]);
        assert steps[i..][1..] == steps[i + 1..];
        ExecuteOne(steps[i]);
      }
    }
  }
}
