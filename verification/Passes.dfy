/**
 * The convergence sweep on the backend itself: a pass departs what is dead and what is orphaned, the dispatcher works
 * the tombstones off, and from every reachable state two aged passes leave nothing behind.
 */
module Passes {
  import opened Common
  import opened Scope
  import opened Protocol
  import opened ProtocolOrder
  import opened ProtocolSafety
  import opened ProtocolRest
  import opened Departure
  import opened DepartureRuns
  import opened Reconciler
  import opened Convergence
  import opened Quiesce

  // ------------------------------------------------------------------ what a pass does

  /** Where g is Live, its departure without interruption leads from s to t. */
  ghost predicate DepartsTo(c: Codec, s: State, g: Gen, t: State) {
    && InPhase(s, g, LIVE) && LeadsTo(c, s, t)
    && exists pending, messages ::
         && IsSweep(Tracked(s, s.sess[g].uuid) + s.sess[g].sent, pending) && AreBatches(g, pending, messages)
         && DepartureRuns.Departed(s, t, g, messages)
  }

  /** u's entry departs; an orphan is given a synthetic entry first. */
  ghost predicate OneDeparts(c: Codec, s: State, u: Uuid, orphan: bool, t: State) {
    if orphan then Enabled(c, s, RegisterOrphan(u)) && DepartsTo(c, WithOrphan(s, u), s.nextGen, t)
    else u in s.registry && DepartsTo(c, s, s.registry[u], t)
  }

  ghost predicate AllDepart(c: Codec, s: State, us: seq<Uuid>, orphan: bool, t: State)
    decreases |us|
  {
    if us == [] then t == s
    else exists m :: AllDepart(c, s, Front(us), orphan, m) && OneDeparts(c, m, Last(us), orphan, t)
  }

  function Front(us: seq<Uuid>): seq<Uuid>
    requires us != []
  {
    us[..|us| - 1]
  }

  function Last(us: seq<Uuid>): Uuid
    requires us != []
  {
    us[|us| - 1]
  }

  /** The dispatcher works the queue off. */
  function DrainAll(c: Codec, s: State): State
    decreases |s.log| - s.drained
  {
    if s.drained < |s.log| then DrainAll(c, Dispatched(c, s)) else s
  }

  function Look(seen: map<Uuid, int>, u: Uuid): Option<int> { if u in seen then Some(seen[u]) else None }

  predicate Listed(us: seq<Uuid>) { forall i, j :: 0 <= i < j < |us| ==> us[i] != us[j] }

  /** The entries the first loop of a pass departs. */
  ghost predicate AreDead(s: State, w: World, now: int, minAge: int, us: seq<Uuid>) {
    Listed(us) && forall u :: u in us <==> InfoOf(s, w, u).Some? && IsDead(InfoOf(s, w, u).value, now, minAge)
  }

  /** Derived without an entry, and sighted long enough ago. */
  predicate IsOrphaned(v: View, now: int, minAge: int) {
    Derived(v) && v.entry.None? && v.seen.Some? && now - v.seen.value >= minAge
  }

  ghost predicate AreOrphaned(c: Codec, s: State, w: World, seen: map<Uuid, int>, now: int, minAge: int, us: seq<Uuid>)
    requires Ownership(s)
  {
    Listed(us) && forall u :: u in us <==> IsOrphaned(Project(c, s, w, u, Look(seen, u)), now, minAge)
  }

  /** The sightings after the second loop. */
  ghost predicate Sighted(c: Codec, s: State, w: World, seen: map<Uuid, int>, now: int, minAge: int,
                          after: map<Uuid, int>)
    requires Ownership(s)
  {
    forall u: Uuid :: Look(after, u) == OrphanStep(Project(c, s, w, u, Look(seen, u)), now, minAge).seen
  }

  /** One pass at the time now, each departure in some order and uninterrupted, and the queue drained after it. */
  ghost predicate IsPass(c: Codec, s: State, w: World, seen: map<Uuid, int>, now: int, minAge: int,
                         t: State, after: map<Uuid, int>) {
    exists dead, orphaned, m, n ::
      && AreDead(s, w, now, minAge, dead) && AllDepart(c, s, dead, false, m)
      && Ownership(m) && AreOrphaned(c, m, w, seen, now, minAge, orphaned) && AllDepart(c, m, orphaned, true, n)
      && Sighted(c, m, w, seen, now, minAge, after) && t == DrainAll(c, n)
  }

  // ------------------------------------------------------------------ between the steps of a pass

  /** No departure under way and nothing in flight; only tombstones are waiting. */
  ghost predicate Calm(c: Codec, s: State) {
    && Reachable(c, s) && Inv(c, s)
    && (forall g :: g in s.sess ==> s.sess[g].inflight == multiset{} && s.sess[g].phase in {LIVE, FINISHED})
    && (forall i :: s.drained <= i < |s.log| ==> s.log[i].origin.FromDeparture?)
  }

  lemma RestIsCalm(c: Codec, s: State)
    requires Reachable(c, s) && Resting(s)
    ensures Calm(c, s)
  {
    ReachableInv(c, s);
  }

  lemma CalmIsRest(c: Codec, s: State)
    requires Calm(c, s) && s.drained == |s.log|
    ensures Resting(s)
  {
  }

  lemma DepartsKeepsCalm(c: Codec, s: State, g: Gen, t: State)
    requires Calm(c, s) && DepartsTo(c, s, g, t)
    ensures Calm(c, t)
  {
    hide LeadsTo, Reachable, IsSweep, Inv, AreTombstones, GoesBefore, SlotsOf, Tracked, Ownership;
    LeadsToReaches(c, s, t);
    ReachableInv(c, t);
    FinishedIsIdle(c, t, g);
    var pending: seq<Batch>, messages: seq<Msg> :|
      && IsSweep(Tracked(s, s.sess[g].uuid) + s.sess[g].sent, pending) && AreBatches(g, pending, messages)
      && DepartureRuns.Departed(s, t, g, messages);
    assert forall i :: 0 <= i < |messages| ==> messages[i].origin.FromDeparture?;
  }

  lemma FinishedIsIdle(c: Codec, t: State, g: Gen)
    requires Inv(c, t)
    ensures g in t.sess && t.sess[g].phase == FINISHED ==> t.sess[g].inflight == multiset{}
  {
    if g in t.sess { SessionFacts(t, g); }
  }

  lemma DepartsView(c: Codec, s: State, g: Gen, t: State, w: World, u: Uuid, seen: Option<int>)
    requires Canonical(c) && Calm(c, s) && DepartsTo(c, s, g, t) && Ownership(t)
    ensures Project(c, t, w, u, seen)
            == if u == s.sess[g].uuid then Departs(Project(c, s, w, u, seen)) else Project(c, s, w, u, seen)
  {
    hide LeadsTo, Reachable, IsSweep, Inv, AreBatches, Tracked, Ownership, DepartureRuns.Departed, Project, Departs,
         Canonical;
    var pending: seq<Batch>, messages: seq<Msg> :|
      && IsSweep(Tracked(s, s.sess[g].uuid) + s.sess[g].sent, pending) && AreBatches(g, pending, messages)
      && DepartureRuns.Departed(s, t, g, messages);
    DepartureIsDeparts(c, s, t, g, pending, messages, w, u, seen);
  }

  lemma OrphanFollows(c: Codec, s: State, u: Uuid)
    requires Reachable(c, s) && Enabled(c, s, RegisterOrphan(u))
    ensures Reachable(c, WithOrphan(s, u)) && LeadsTo(c, s, WithOrphan(s, u))
  {
    hide Reachable, Enabled, Next, LeadsTo;
    OrphanIs(c, s, u);
    StepReaches(c, s, RegisterOrphan(u));
    Start(c, s);
    ThenStep(c, s, s, RegisterOrphan(u));
  }

  lemma OrphanKeepsCalm(c: Codec, s: State, u: Uuid)
    requires Calm(c, s) && Enabled(c, s, RegisterOrphan(u))
    ensures Calm(c, WithOrphan(s, u)) && LeadsTo(c, s, WithOrphan(s, u))
    ensures u !in s.registry && WithOrphan(s, u).sess[s.nextGen].uuid == u
  {
    hide Reachable, Inv, Enabled, LeadsTo;
    OrphanIs(c, s, u);
    OrphanFollows(c, s, u);
    ReachableInv(c, WithOrphan(s, u));
    hide Next;
  }

  lemma RegisteredIs(c: Codec, s: State, u: Uuid)
    requires Inv(c, s) && u in s.registry
    ensures s.registry[u] in s.sess && s.sess[s.registry[u]].uuid == u
  {
    assert Typed(s.sess, s.nextGen, s.registry);
  }

  /** One departure of a pass: reachable, calm, and to the sweep exactly Departs of that uuid. */
  lemma OneDepartsKeepsCalm(c: Codec, s: State, u: Uuid, orphan: bool, t: State)
    requires Calm(c, s) && OneDeparts(c, s, u, orphan, t)
    ensures Calm(c, t) && LeadsTo(c, s, t)
  {
    hide Calm, LeadsTo, Enabled;
    if orphan {
      OrphanKeepsCalm(c, s, u);
      DepartsKeepsCalm(c, WithOrphan(s, u), s.nextGen, t);
      hide WithOrphan;
      LeadsToOn(c, s, WithOrphan(s, u), t);
    } else {
      DepartsKeepsCalm(c, s, s.registry[u], t);
    }
  }

  lemma OneDepartsView(c: Codec, s: State, u: Uuid, orphan: bool, t: State, w: World, x: Uuid, seen: Option<int>)
    requires Canonical(c) && Calm(c, s) && OneDeparts(c, s, u, orphan, t) && Ownership(t) && Ownership(s)
    ensures Project(c, t, w, x, seen)
            == if x == u then Departs(Project(c, s, w, x, seen)) else Project(c, s, w, x, seen)
  {
    hide Canonical, Calm, DepartsTo, Enabled, Ownership, Project;
    if orphan {
      OrphanKeepsCalm(c, s, u);
      OrphanView(c, s, u, t, w, x, seen);
    } else {
      CalmOwns(c, s);
      RegisteredIs(c, s, u);
      hide Inv;
      DepartsView(c, s, s.registry[u], t, w, x, seen);
    }
  }

  lemma OrphanView(c: Codec, s: State, u: Uuid, t: State, w: World, x: Uuid, seen: Option<int>)
    requires Canonical(c) && Ownership(s) && Ownership(t) && Calm(c, WithOrphan(s, u)) && u !in s.registry
    requires DepartsTo(c, WithOrphan(s, u), s.nextGen, t)
    ensures Project(c, t, w, x, seen)
            == if x == u then Departs(Project(c, s, w, x, seen)) else Project(c, s, w, x, seen)
  {
    hide Canonical, Calm, DepartsTo, Ownership, Project, InfoOf;
    var m := WithOrphan(s, u);
    CalmOwns(c, m);
    OrphanIsAnEntry(c, s, u, w, x, seen);
    OrphanLeavesEntries(s, u, w, x);
    DepartsView(c, m, s.nextGen, t, w, x, seen);
    EntryOf(c, s, w, x, seen);
    EntryOf(c, m, w, x, seen);
    hide Inv;
  }

  lemma CalmOwns(c: Codec, s: State)
    requires Calm(c, s)
    ensures Ownership(s) && Inv(c, s) && Reachable(c, s)
  {
  }

  lemma EntryOf(c: Codec, s: State, w: World, u: Uuid, seen: Option<int>)
    requires Ownership(s)
    ensures Project(c, s, w, u, seen).entry == InfoOf(s, w, u)
    ensures Project(c, s, w, u, seen).seen == seen
  {
  }

  /** The departures of one loop, in whatever order: each listed uuid departs, the others look the same. */
  lemma {:induction false} AllDepartKeepsCalm(c: Codec, s: State, us: seq<Uuid>, orphan: bool, t: State)
    requires Calm(c, s) && AllDepart(c, s, us, orphan, t)
    ensures Calm(c, t) && LeadsTo(c, s, t)
    decreases |us|
  {
    hide Calm, LeadsTo, OneDeparts;
    if us == [] {
      Start(c, s);
    } else {
      var m :| AllDepart(c, s, Front(us), orphan, m) && OneDeparts(c, m, Last(us), orphan, t);
      AllDepartKeepsCalm(c, s, Front(us), orphan, m);
      OneDepartsKeepsCalm(c, m, Last(us), orphan, t);
      LeadsToOn(c, s, m, t);
    }
  }

  lemma {:induction false} AllDepartView(c: Codec, s: State, us: seq<Uuid>, orphan: bool, t: State,
                                         w: World, x: Uuid, seen: Option<int>)
    requires Canonical(c) && Calm(c, s) && Listed(us) && AllDepart(c, s, us, orphan, t) && Ownership(s) && Ownership(t)
    ensures Project(c, t, w, x, seen)
            == if x in us then Departs(Project(c, s, w, x, seen)) else Project(c, s, w, x, seen)
    decreases |us|
  {
    hide Calm, LeadsTo, OneDeparts, Canonical, Ownership, Project;
    if us != [] {
      var m :| AllDepart(c, s, Front(us), orphan, m) && OneDeparts(c, m, Last(us), orphan, t);
      AllDepartKeepsCalm(c, s, Front(us), orphan, m);
      CalmOwns(c, m);
      AllDepartView(c, s, Front(us), orphan, m, w, x, seen);
      OneDepartsView(c, m, Last(us), orphan, t, w, x, seen);
      assert us == Front(us) + [Last(us)];
    }
  }

  /** The queue drained: at rest, and to the sweep exactly Drained. */
  lemma {:induction false} DrainAllRests(c: Codec, s: State)
    requires Calm(c, s)
    ensures Calm(c, DrainAll(c, s)) && Resting(DrainAll(c, s)) && LeadsTo(c, s, DrainAll(c, s))
    decreases |s.log| - s.drained
  {
    if s.drained < |s.log| {
      DispatchKeepsCalm(c, s);
      DrainAllRests(c, Dispatched(c, s));
      hide Calm, Resting, LeadsTo, Dispatched;
      LeadsToOn(c, s, Dispatched(c, s), DrainAll(c, Dispatched(c, s)));
    } else {
      hide LeadsTo;
      Start(c, s);
      CalmIsRest(c, s);
    }
  }

  lemma DispatchKeepsCalm(c: Codec, s: State)
    requires Calm(c, s) && s.drained < |s.log|
    ensures Calm(c, Dispatched(c, s)) && LeadsTo(c, s, Dispatched(c, s))
  {
    DrainIs(c, s);
    StepReaches(c, s, Drain);
    ReachableInv(c, Dispatched(c, s));
    hide Reachable, Inv, Enabled, Next, Track;
    Start(c, s);
    ThenStep(c, s, s, Drain);
  }

  lemma {:induction false} DrainAllView(c: Codec, s: State, w: World, u: Uuid, seen: Option<int>)
    requires Canonical(c) && Calm(c, s) && Ownership(s) && Ownership(DrainAll(c, s))
    ensures Drained(Project(c, DrainAll(c, s), w, u, seen)) == Drained(Project(c, s, w, u, seen))
    decreases |s.log| - s.drained
  {
    if s.drained < |s.log| {
      DispatchKeepsCalm(c, s);
      CalmOwns(c, Dispatched(c, s));
      DrainAllView(c, Dispatched(c, s), w, u, seen);
      DrainOne(c, s, w, u, seen);
      hide *;
    }
  }

  // ------------------------------------------------------------------ a pass, as the sweep sees it

  lemma PassRests(c: Codec, s: State, w: World, seen: map<Uuid, int>, now: int, minAge: int, t: State,
                  after: map<Uuid, int>)
    requires Reachable(c, s) && Resting(s) && IsPass(c, s, w, seen, now, minAge, t, after)
    ensures Reachable(c, t) && Resting(t) && LeadsTo(c, s, t)
  {
    hide Reachable, Resting, LeadsTo, Calm, AllDepart, Ownership, AreDead, Sighted, AreOrphaned;
    var dead, orphaned, m, n :|
      && AreDead(s, w, now, minAge, dead) && AllDepart(c, s, dead, false, m)
      && Ownership(m) && AreOrphaned(c, m, w, seen, now, minAge, orphaned) && AllDepart(c, m, orphaned, true, n)
      && Sighted(c, m, w, seen, now, minAge, after) && t == DrainAll(c, n);
    RestIsCalm(c, s);
    AllDepartKeepsCalm(c, s, dead, false, m);
    AllDepartKeepsCalm(c, m, orphaned, true, n);
    DrainAllRests(c, n);
    CalmOwns(c, t);
    LeadsToOn(c, s, m, n);
    LeadsToOn(c, s, n, t);
  }

  /** A pass and the drain after it do to every uuid's view exactly what Swept says. */
  lemma PassIsSwept(c: Codec, s: State, w: World, seen: map<Uuid, int>, now: int, minAge: int,
                    t: State, after: map<Uuid, int>, u: Uuid)
    requires Canonical(c) && Reachable(c, s) && Resting(s) && IsPass(c, s, w, seen, now, minAge, t, after)
    requires Ownership(s) && Ownership(t) && Reachable(c, t) && Resting(t)
    ensures Project(c, t, w, u, Look(after, u)) == Reconciler.Swept(Project(c, s, w, u, Look(seen, u)), now, minAge)
  {
    hide Reachable, Resting, Calm, AllDepart, Ownership, Canonical, DrainAll, Project;
    var dead, orphaned, m, n :|
      && AreDead(s, w, now, minAge, dead) && AllDepart(c, s, dead, false, m)
      && Ownership(m) && AreOrphaned(c, m, w, seen, now, minAge, orphaned) && AllDepart(c, m, orphaned, true, n)
      && Sighted(c, m, w, seen, now, minAge, after) && t == DrainAll(c, n);
    RestIsCalm(c, s);
    AllDepartKeepsCalm(c, s, dead, false, m);
    AllDepartKeepsCalm(c, m, orphaned, true, n);
    CalmOwns(c, n);
    var x, y := Look(seen, u), Look(after, u);
    AllDepartView(c, s, dead, false, m, w, u, x);
    EntryOf(c, s, w, u, x);
    AllDepartView(c, m, orphaned, true, n, w, u, y);
    SeenOnly(c, m, w, u, x, y);
    DrainAllView(c, n, w, u, y);
    NothingOwed(c, t, w, u, y);
    PassedView(Project(c, s, w, u, x), Project(c, m, w, u, x), Project(c, n, w, u, y), u in orphaned, now, minAge);
  }

  lemma SeenOnly(c: Codec, s: State, w: World, u: Uuid, x: Option<int>, y: Option<int>)
    requires Ownership(s)
    ensures Project(c, s, w, u, y) == Project(c, s, w, u, x).(seen := y)
  {
  }

  /** At rest nothing is owed, so draining changes nothing. */
  lemma NothingOwed(c: Codec, s: State, w: World, u: Uuid, seen: Option<int>)
    requires Ownership(s) && Resting(s)
    ensures Drained(Project(c, s, w, u, seen)) == Project(c, s, w, u, seen)
  {
    assert !IsOwed(s, Marker(c, u));
  }

  /** v, after the first loop, after the second: together one Pass. */
  lemma PassedView(v: View, judged: View, done: View, orphaned: bool, now: int, minAge: int)
    requires judged == DeadStep(v, now, minAge) && (orphaned <==> IsOrphaned(judged, now, minAge))
    requires done.seen == OrphanStep(judged, now, minAge).seen
    requires done == (if orphaned then Departs(judged.(seen := done.seen)) else judged.(seen := done.seen))
    ensures done == Pass(v, now, minAge)
  {
  }

  // ------------------------------------------------------------------ passes can always run

  lemma {:induction false} ListOf(us: set<Uuid>) returns (l: seq<Uuid>)
    ensures Listed(l) && forall u :: u in l <==> u in us
    decreases |us|
  {
    if us == {} {
      l := [];
    } else {
      var u :| u in us;
      var rest := ListOf(us - {u});
      l := rest + [u];
    }
  }

  lemma DepartureExists(c: Codec, s: State, g: Gen) returns (t: State)
    requires Calm(c, s) && InPhase(s, g, LIVE)
    ensures DepartsTo(c, s, g, t)
  {
    var pending := SweepExists(Tracked(s, s.sess[g].uuid) + s.sess[g].sent);
    var messages := MessagesExist(g, pending);
    hide LeadsTo, IsSweep, AreBatches, Tracked, DepartureRuns.Departed, Reachable, Ownership;
    UninterruptedDeparture(c, s, g, pending, messages);
    t :| LeadsTo(c, s, t) && DepartureRuns.Departed(s, t, g, messages);
  }

  lemma OneCanDepart(c: Codec, s: State, u: Uuid, orphan: bool) returns (t: State)
    requires Calm(c, s) && (if orphan then u != NIL && u !in s.registry else u in s.registry)
    ensures OneDeparts(c, s, u, orphan, t)
  {
    if orphan {
      OrphanKeepsCalm(c, s, u);
      hide Calm, DepartsTo;
      t := DepartureExists(c, WithOrphan(s, u), s.nextGen);
    } else {
      assert InPhase(s, s.registry[u], LIVE) by { assert Typed(s.sess, s.nextGen, s.registry); }
      hide Calm, DepartsTo;
      t := DepartureExists(c, s, s.registry[u]);
    }
  }

  lemma {:induction false} AllCanDepart(c: Codec, s: State, us: seq<Uuid>, orphan: bool) returns (t: State)
    requires Canonical(c) && Calm(c, s) && Listed(us)
    requires forall u :: u in us ==> if orphan then u != NIL && u !in s.registry else u in s.registry
    ensures AllDepart(c, s, us, orphan, t)
    decreases |us|
  {
    hide Calm, OneDeparts, Canonical;
    if us == [] {
      t := s;
    } else {
      var m := AllCanDepart(c, s, Front(us), orphan);
      AllDepartKeepsCalm(c, s, Front(us), orphan, m);
      CalmOwns(c, s);
      CalmOwns(c, m);
      var w := World({}, g => 0);
      AllDepartView(c, s, Front(us), orphan, m, w, Last(us), None);
      EntryOf(c, s, w, Last(us), None);
      EntryOf(c, m, w, Last(us), None);
      hide Project, Ownership;
      t := OneCanDepart(c, m, Last(us), orphan);
    }
  }

  /** Every uuid a pass may find derived. */
  function Candidates(c: Codec, s: State): set<Uuid>
    requires s.drained <= |s.log|
  {
    s.handlers.Keys + s.bouncers.Keys + s.conn.Keys
    + set k | k in CacheOf(c, s.log[..s.drained]) && IsMarker(c, k) :: c.parse(k.key).value
  }

  lemma DerivedIsCandidate(c: Codec, s: State, w: World, u: Uuid, seen: Option<int>)
    requires Canonical(c) && Ownership(s) && Derived(Project(c, s, w, u, seen))
    ensures u in Candidates(c, s)
  {
    MarkerIsOwn(c, u);
    hide IsMarker, CacheOf, Canonical;
  }

  ghost function NextSeen(c: Codec, s: State, w: World, seen: map<Uuid, int>, now: int, minAge: int,
                          u: Uuid): Option<int>
    requires Ownership(s)
  {
    OrphanStep(Project(c, s, w, u, Look(seen, u)), now, minAge).seen
  }

  lemma SightedIsCandidate(c: Codec, s: State, w: World, seen: map<Uuid, int>, now: int, minAge: int, u: Uuid)
    requires Canonical(c) && Ownership(s) && NextSeen(c, s, w, seen, now, minAge, u).Some?
    ensures u in Candidates(c, s)
  {
    DerivedIsCandidate(c, s, w, u, Look(seen, u));
    hide Project, Candidates, Canonical, Ownership;
  }

  lemma SightingsExist(c: Codec, s: State, w: World, seen: map<Uuid, int>, now: int, minAge: int)
    returns (after: map<Uuid, int>)
    requires Canonical(c) && Ownership(s)
    ensures Sighted(c, s, w, seen, now, minAge, after)
  {
    var all := Candidates(c, s);
    hide Project, Candidates, Canonical, Ownership, OrphanStep, Sighted;
    after := map u | u in all && NextSeen(c, s, w, seen, now, minAge, u).Some?
                   :: NextSeen(c, s, w, seen, now, minAge, u).value;
    forall u: Uuid
      ensures Look(after, u) == NextSeen(c, s, w, seen, now, minAge, u)
    {
      if NextSeen(c, s, w, seen, now, minAge, u).Some? { SightedIsCandidate(c, s, w, seen, now, minAge, u); }
    }
    AllSighted(c, s, w, seen, now, minAge, after);
  }

  lemma AllSighted(c: Codec, s: State, w: World, seen: map<Uuid, int>, now: int, minAge: int, after: map<Uuid, int>)
    requires Ownership(s) && forall u: Uuid :: Look(after, u) == NextSeen(c, s, w, seen, now, minAge, u)
    ensures Sighted(c, s, w, seen, now, minAge, after)
  {
    hide Project, OrphanStep, Ownership;
  }

  lemma DeadAreListed(s: State, w: World, now: int, minAge: int) returns (dead: seq<Uuid>)
    ensures AreDead(s, w, now, minAge, dead)
  {
    dead := ListOf(set u | u in s.registry && IsDead(InfoOf(s, w, u).value, now, minAge));
  }

  lemma OrphansAreListed(c: Codec, s: State, w: World, seen: map<Uuid, int>, now: int, minAge: int)
    returns (orphaned: seq<Uuid>)
    requires Ownership(s)
    ensures AreOrphaned(c, s, w, seen, now, minAge, orphaned)
  {
    forall u | IsOrphaned(Project(c, s, w, u, Look(seen, u)), now, minAge)
      ensures u in seen
    {
      EntryOf(c, s, w, u, Look(seen, u));
    }
    hide Project, Ownership;
    orphaned := ListOf(set u | u in seen && IsOrphaned(Project(c, s, w, u, Look(seen, u)), now, minAge));
  }

  /** From every reachable state at rest a pass can run. */
  lemma PassExists(c: Codec, s: State, w: World, seen: map<Uuid, int>, now: int, minAge: int)
    returns (t: State, after: map<Uuid, int>)
    requires Canonical(c) && Reachable(c, s) && Resting(s)
    ensures IsPass(c, s, w, seen, now, minAge, t, after)
  {
    RestIsCalm(c, s);
    CalmOwns(c, s);
    hide Calm, AllDepart, Reachable, Resting, Canonical, Ownership, Project;
    var dead := DeadAreListed(s, w, now, minAge);
    var m := AllCanDepart(c, s, dead, false);
    AllDepartKeepsCalm(c, s, dead, false, m);
    CalmOwns(c, m);
    var orphaned := OrphansAreListed(c, m, w, seen, now, minAge);
    forall u | u in orphaned
      ensures u != NIL && u !in m.registry
    {
      OrphanedCanDepart(c, s, dead, m, w, u, Look(seen, u), now, minAge);
    }
    var n := AllCanDepart(c, m, orphaned, true);
    after := SightingsExist(c, m, w, seen, now, minAge);
    t := DrainAll(c, n);
    hide AreDead, AreOrphaned, Sighted, DrainAll;
  }

  lemma OrphanedCanDepart(c: Codec, s: State, dead: seq<Uuid>, m: State, w: World, u: Uuid, seen: Option<int>, now: int,
                          minAge: int)
    requires Canonical(c) && Reachable(c, s) && Resting(s) && Calm(c, s) && Ownership(s) && Ownership(m)
    requires AreDead(s, w, now, minAge, dead) && AllDepart(c, s, dead, false, m)
    requires IsOrphaned(Project(c, m, w, u, seen), now, minAge)
    ensures u != NIL && u !in m.registry
  {
    EntryOf(c, m, w, u, seen);
    EntryOf(c, s, w, u, seen);
    NeverStranded(c, s, w, u, seen);
    AllDepartView(c, s, dead, false, m, w, u, seen);
    hide Calm, AllDepart, Reachable, Canonical, Ownership, Project;
    RegisteredAtRest(s, u);
  }

  // ------------------------------------------------------------------ convergence

  /** What derivedUuids finds: in a map, or a standing marker in whatever text. */
  ghost predicate IsDerived(c: Codec, s: State, u: Uuid)
    requires s.drained <= |s.log|
  {
    u in s.handlers || u in s.bouncers || u in s.conn
    || exists k :: IsMarker(c, k) && c.parse(k.key) == Some(u) && Stands(c, s, k)
  }

  /** Everything derived belongs to a registered session that is Live and whose transport is alive. */
  ghost predicate Converged(c: Codec, s: State, w: World)
    requires s.drained <= |s.log|
  {
    forall u :: IsDerived(c, s, u) ==> u in s.registry && InPhase(s, s.registry[u], LIVE) && s.registry[u] !in w.dead
  }

  ghost predicate AllAged(s: State, w: World, seen: map<Uuid, int>, now: int, minAge: int) {
    && (forall u :: u in s.registry ==> now - w.admittedAt(s.registry[u]) >= minAge)
    && forall u :: u in seen ==> seen[u] <= now
  }

  lemma DerivedAtRest(c: Codec, s: State, w: World, u: Uuid, seen: Option<int>)
    requires Canonical(c) && Reachable(c, s) && Resting(s) && Ownership(s)
    ensures IsDerived(c, s, u) <==> Derived(Project(c, s, w, u, seen))
  {
    MarkerIsOwn(c, u);
    if k :| IsMarker(c, k) && c.parse(k.key) == Some(u) && Stands(c, s, k) { StandingAtRest(c, s, k); }
    hide Reachable, Resting, Ownership, Stands, IsMarker, Canonical;
  }

  lemma SettledIsConverged(c: Codec, s: State, w: World, seen: map<Uuid, int>)
    requires Canonical(c) && Reachable(c, s) && Resting(s) && Ownership(s)
    ensures Converged(c, s, w) <==> forall u: Uuid :: Settled(Project(c, s, w, u, Look(seen, u)))
  {
    forall u: Uuid
      ensures Settled(Project(c, s, w, u, Look(seen, u))) <==>
              (IsDerived(c, s, u) ==> u in s.registry && InPhase(s, s.registry[u], LIVE) && s.registry[u] !in w.dead)
    {
      DerivedAtRest(c, s, w, u, Look(seen, u));
      EntryOf(c, s, w, u, Look(seen, u));
      hide Reachable, Resting, Ownership, IsDerived, Project, Canonical;
    }
    hide Project, IsDerived, Settled;
  }

  /** Two passes that find every session and sighting old enough leave every derived uuid with a living session. */
  lemma TwoPassesConverge(c: Codec, s: State, w: World, seen: map<Uuid, int>, first: int, second: int, minAge: int,
                          t: State, once: map<Uuid, int>, r: State, twice: map<Uuid, int>)
    requires Canonical(c) && Reachable(c, s) && Resting(s)
    requires minAge >= 0 && second - first >= minAge && AllAged(s, w, seen, first, minAge)
    requires IsPass(c, s, w, seen, first, minAge, t, once) && IsPass(c, t, w, once, second, minAge, r, twice)
    ensures Reachable(c, r) && Resting(r) && LeadsTo(c, s, r) && Converged(c, r, w)
  {
    hide Reachable, Resting, LeadsTo, IsPass, Canonical, Converged;
    PassRests(c, s, w, seen, first, minAge, t, once);
    PassRests(c, t, w, once, second, minAge, r, twice);
    LeadsToOn(c, s, t, r);
    RestIsCalm(c, s);
    RestIsCalm(c, t);
    RestIsCalm(c, r);
    hide Ownership, Project, Reconciler.Swept, Settled, Calm;
    CalmOwns(c, s);
    CalmOwns(c, t);
    CalmOwns(c, r);
    forall u: Uuid
      ensures Settled(Project(c, r, w, u, Look(twice, u)))
    {
      PassIsSwept(c, s, w, seen, first, minAge, t, once, u);
      PassIsSwept(c, t, w, once, second, minAge, r, twice, u);
      var v := Project(c, s, w, u, Look(seen, u));
      SweptTwice(v, first, second, minAge);
      NeverStranded(c, s, w, u, Look(seen, u));
      AgedView(c, s, w, seen, first, minAge, u);
      TwoSweepsSettle(v, first, second, minAge);
    }
    SettledIsConverged(c, r, w, twice);
  }

  lemma AgedView(c: Codec, s: State, w: World, seen: map<Uuid, int>, now: int, minAge: int, u: Uuid)
    requires Ownership(s) && AllAged(s, w, seen, now, minAge) && Resting(s)
    ensures Aged(Project(c, s, w, u, Look(seen, u)), now, minAge) && !Project(c, s, w, u, Look(seen, u)).owed
  {
  }

  /** Once converged, every further pass leaves it so and touches no living session. */
  lemma ConvergedStays(c: Codec, s: State, w: World, seen: map<Uuid, int>, now: int, minAge: int, t: State,
                       after: map<Uuid, int>)
    requires Canonical(c) && Reachable(c, s) && Resting(s) && Converged(c, s, w)
    requires IsPass(c, s, w, seen, now, minAge, t, after)
    ensures Reachable(c, t) && Resting(t) && LeadsTo(c, s, t) && Converged(c, t, w) && Ownership(s) && Ownership(t)
    ensures forall u :: u in s.registry && s.registry[u] !in w.dead ==>
              Project(c, t, w, u, None) == Project(c, s, w, u, None)
  {
    hide Reachable, Resting, LeadsTo, IsPass, Canonical, Converged;
    PassRests(c, s, w, seen, now, minAge, t, after);
    RestIsCalm(c, s);
    RestIsCalm(c, t);
    hide Ownership, Project, Reconciler.Swept, Settled, Calm;
    CalmOwns(c, s);
    CalmOwns(c, t);
    SettledIsConverged(c, s, w, seen);
    forall u: Uuid
      ensures Settled(Project(c, t, w, u, Look(after, u)))
      ensures u in s.registry && s.registry[u] !in w.dead ==> Project(c, t, w, u, None) == Project(c, s, w, u, None)
    {
      PassIsSwept(c, s, w, seen, now, minAge, t, after, u);
      var v := Project(c, s, w, u, Look(seen, u));
      NothingIsOwed(c, s, w, u, Look(seen, u));
      SettledStays(v, [now], minAge);
      SweptOnce(v, now, minAge);
      EntryOf(c, s, w, u, Look(seen, u));
      SeenOnly(c, s, w, u, Look(seen, u), None);
      SeenOnly(c, t, w, u, Look(after, u), None);
    }
    SettledIsConverged(c, t, w, after);
  }

  lemma NothingIsOwed(c: Codec, s: State, w: World, u: Uuid, seen: Option<int>)
    requires Ownership(s) && Resting(s)
    ensures !Project(c, s, w, u, seen).owed
  {
  }

  lemma SweptOnce(v: View, now: int, minAge: int)
    ensures SweptAll(v, [now], minAge) == Reconciler.Swept(v, now, minAge)
  {
    assert [now][1..] == [];
  }

  /** Passes at the given times, one after the other. */
  ghost predicate AllPasses(c: Codec, s: State, w: World, seen: map<Uuid, int>, times: seq<int>, minAge: int, t: State)
    decreases |times|
  {
    if times == [] then t == s
    else
      exists m, after ::
        IsPass(c, s, w, seen, times[0], minAge, m, after) && AllPasses(c, m, w, after, times[1..], minAge, t)
  }

  /** However many passes follow, at whatever times. */
  lemma {:induction false} ConvergedForever(c: Codec, s: State, w: World, seen: map<Uuid, int>, times: seq<int>,
                                            minAge: int, t: State)
    requires Canonical(c) && Reachable(c, s) && Resting(s) && Converged(c, s, w)
             && AllPasses(c, s, w, seen, times, minAge, t)
    ensures Reachable(c, t) && Resting(t) && Converged(c, t, w)
    decreases |times|
  {
    hide Reachable, Resting, Converged, IsPass, Canonical;
    if times != [] {
      var m, after :| IsPass(c, s, w, seen, times[0], minAge, m, after)
          && AllPasses(c, m, w, after, times[1..], minAge, t);
      ConvergedStays(c, s, w, seen, times[0], minAge, m, after);
      ConvergedForever(c, m, w, after, times[1..], minAge, t);
    }
  }

  /** A time by which every registered session and every sighting is old enough. */
  lemma LateEnough(s: State, w: World, seen: map<Uuid, int>, minAge: int) returns (now: int)
    ensures AllAged(s, w, seen, now, minAge)
  {
    var a := AtLeast(s.registry.Keys, u requires u in s.registry => w.admittedAt(s.registry[u]) + minAge);
    var b := AtLeast(seen.Keys, u requires u in seen => seen[u]);
    now := Max(a, b);
  }

  lemma {:induction false} AtLeast(us: set<Uuid>, f: Uuid --> int) returns (n: int)
    requires forall u :: u in us ==> f.requires(u)
    ensures forall u :: u in us ==> f(u) <= n
    decreases |us|
  {
    if us == {} {
      n := 0;
    } else {
      var u :| u in us;
      n := AtLeast(us - {u}, f);
      n := Max(n, f(u));
    }
  }

  /**
   * The convergence guarantee: from every reachable state, whatever has been lost on the way, what goes on by itself
   * leads to rest, and two passes after that leave every derived uuid with a registered living session.
   */
  lemma EveryStateConverges(c: Codec, s: State, w: World, seen: map<Uuid, int>, minAge: int)
    returns (work: seq<Step>, rest: State, first: int, t: State, once: map<Uuid, int>, r: State, twice: map<Uuid, int>)
    requires Canonical(c) && Reachable(c, s) && minAge >= 0
    ensures Leads(c, s, work, rest) && (forall e :: e in work ==> IsWork(e)) && Resting(rest)
    ensures IsPass(c, rest, w, seen, first, minAge, t, once) && IsPass(c, t, w, once, first + minAge, minAge, r, twice)
    ensures Reachable(c, r) && Resting(r) && LeadsTo(c, rest, r) && Converged(c, r, w)
  {
    hide Reachable, Resting, Leads, LeadsTo, IsPass, Canonical, Converged, AllAged;
    work, rest := ReachesRest(c, s);
    first := LateEnough(rest, w, seen, minAge);
    t, once := PassExists(c, rest, w, seen, first, minAge);
    PassRests(c, rest, w, seen, first, minAge, t, once);
    r, twice := PassExists(c, t, w, once, first + minAge, minAge);
    TwoPassesConverge(c, rest, w, seen, first, first + minAge, minAge, t, once, r, twice);
  }
}
