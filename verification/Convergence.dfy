/** The backend's state as the sweep sees it: what a departure, a synthetic entry and the dispatcher do to each uuid. */
module Convergence {
  import opened Common
  import opened Scope
  import opened Protocol
  import opened ProtocolOrder
  import opened ProtocolSafety
  import opened ProtocolRest
  import opened Departure
  import opened DepartureRuns
  import opened Reconciler

  /** What the transports and the clock add: which sessions report dead, and when each was admitted. */
  datatype World = World(dead: set<Gen>, admittedAt: Gen -> int)

  /** A tombstone of k is in the queue and not yet dispatched. */
  ghost predicate IsOwed(s: State, k: Slot) {
    exists i :: s.drained <= i < |s.log| && s.log[i].origin.FromDeparture? && k in SlotsIn(s.log[i])
  }

  ghost predicate Stands(c: Codec, s: State, k: Slot)
    requires s.drained <= |s.log|
  {
    var cache := CacheOf(c, s.log[..s.drained]); k in cache && !cache[k].tombstone
  }

  function InfoOf(s: State, w: World, u: Uuid): Option<Info> {
    if u in s.registry then
      Some(Info(w.admittedAt(s.registry[u]), s.registry[u] !in w.dead, InPhase(s, s.registry[u], LIVE)))
    else None
  }

  /** What the backend's maps, cache and queue show of u. */
  ghost function Project(c: Codec, s: State, w: World, u: Uuid, seen: Option<int>): View
    requires Ownership(s)
  {
    assert Held(s.sess, s.bouncers);
    View(InfoOf(s, w, u), u in s.handlers,
         if u in s.bouncers then Some(Marker(c, u) in s.sess[s.bouncers[u]].sent) else None,
         if u in s.conn then Some(Marker(c, u) in s.conn[u]) else None,
         Stands(c, s, Marker(c, u)), IsOwed(s, Marker(c, u)), seen)
  }

  lemma MarkerIsOwn(c: Codec, u: Uuid)
    requires Canonical(c)
    ensures IsMarker(c, Marker(c, u)) && c.parse(Marker(c, u).key) == Some(u) && Owns(c, u, "entity", Marker(c, u).key)
  {
    assert c.parse(c.show(u)) == Some(u);
    MarkersAreConnectionScoped(c, Marker(c, u));
  }

  /** At rest a marker stands in printed text only, and is in the sent record of its registered live session. */
  lemma StandingAtRest(c: Codec, s: State, k: Slot)
    requires Canonical(c) && Reachable(c, s) && Resting(s) && IsMarker(c, k) && Stands(c, s, k)
    ensures var u := c.parse(k.key).value;
            && k == Marker(c, u) && u != NIL && u in s.registry && InPhase(s, s.registry[u], LIVE)
            && Lookup(s.bouncers, u) == Some(s.registry[u]) && k in s.sess[s.registry[u]].sent
  {
    assert s.log[..s.drained] == s.log;
    NoGhostsAtRest(c, s, k);
    var u := c.parse(k.key).value;
    LiveSessionsOwnTheirUuid(c, s, s.registry[u]);
    SentIsPrinted(c, s, u, k);
    hide Reachable, Stands, Resting, IsMarker, Canonical;
  }

  lemma SentIsPrinted(c: Codec, s: State, u: Uuid, k: Slot)
    requires Reachable(c, s) && u in s.registry && s.registry[u] in s.sess && k in s.sess[s.registry[u]].sent
             && IsMarker(c, k)
    ensures s.sess[s.registry[u]].uuid == u && u != NIL && k == Marker(c, u)
  {
    ReachableInv(c, s);
    hide Reachable, LogOk, ConnOk, AllSweepsOk, Registered, Held, SessionsOk, Owns, IsMarker;
    assert KeysOk(c, s.sess[s.registry[u]]);
    assert Typed(s.sess, s.nextGen, s.registry);
  }

  /** At rest no marker is stranded and no departure is under way. */
  lemma NeverStranded(c: Codec, s: State, w: World, u: Uuid, seen: Option<int>)
    requires Canonical(c) && Reachable(c, s) && Resting(s) && Ownership(s)
    ensures !Stranded(Project(c, s, w, u, seen)) && !Underway(Project(c, s, w, u, seen))
    ensures !IsOwed(s, Marker(c, u)) && (u == NIL ==> !Derived(Project(c, s, w, u, seen)))
  {
    var k := Marker(c, u);
    MarkerIsOwn(c, u);
    if Stands(c, s, k) { StandingAtRest(c, s, k); }
    RegisteredAtRest(s, u);
    NilIsNotTracked(c, s);
    hide Reachable, Stands, SlotsIn, IsMarker, Owns, Canonical;
  }

  lemma RegisteredAtRest(s: State, u: Uuid)
    requires Ownership(s) && Resting(s)
    ensures u in s.registry ==> InPhase(s, s.registry[u], LIVE)
    ensures u == NIL ==> u !in s.registry && u !in s.handlers && u !in s.bouncers
  {
    assert Typed(s.sess, s.nextGen, s.registry) && Held(s.sess, s.handlers) && Held(s.sess, s.bouncers);
  }

  lemma NilIsNotTracked(c: Codec, s: State)
    requires Reachable(c, s)
    ensures NIL !in s.conn
  {
    ReachableInv(c, s);
  }

  // ------------------------------------------------------------------ a departure, as the sweep sees it

  lemma BatchesCarryTheSweep(g: Gen, doomed: set<Slot>, pending: seq<Batch>, messages: seq<Msg>, k: Slot)
    requires IsSweep(doomed, pending) && AreBatches(g, pending, messages)
    ensures k in doomed <==> exists i :: 0 <= i < |messages| && k in SlotsIn(messages[i])
  {
    hide KeysOf, GoesBefore;
    forall i | 0 <= i < |messages|
      ensures SlotsIn(messages[i]) == SlotsOf(pending[i])
    {
      assert AreTombstones(messages[i].ops, pending[i].keys);
    }
    hide SlotsOf, SlotsIn, AreTombstones;
  }

  /** After a departure exactly the doomed keys are owed besides what was owed before. */
  lemma OwedAfterDeparture(s: State, t: State, g: Gen, pending: seq<Batch>, messages: seq<Msg>, k: Slot)
    requires s.drained == t.drained && t.log == s.log + messages && g in s.sess && s.drained <= |s.log|
    requires IsSweep(Tracked(s, s.sess[g].uuid) + s.sess[g].sent, pending) && AreBatches(g, pending, messages)
    ensures IsOwed(t, k) <==> IsOwed(s, k) || k in Tracked(s, s.sess[g].uuid) + s.sess[g].sent
  {
    BatchesCarryTheSweep(g, Tracked(s, s.sess[g].uuid) + s.sess[g].sent, pending, messages, k);
    assert forall i :: 0 <= i < |messages| ==> messages[i].origin.FromDeparture?;
    hide IsSweep, AreBatches, SlotsIn, Tracked;
    OwedInTheTail(s, t, messages, k);
  }

  lemma OwedInTheTail(s: State, t: State, messages: seq<Msg>, k: Slot)
    requires t.log == s.log + messages && t.drained == s.drained <= |s.log|
    requires forall i :: 0 <= i < |messages| ==> messages[i].origin.FromDeparture?
    ensures IsOwed(t, k) <==> IsOwed(s, k) || exists i :: 0 <= i < |messages| && k in SlotsIn(messages[i])
  {
    hide SlotsIn;
    assert forall i :: 0 <= i < |messages| ==> t.log[|s.log| + i] == messages[i];
    if i :| 0 <= i < |messages| && k in SlotsIn(messages[i]) { assert k in SlotsIn(t.log[|s.log| + i]); }
    if i :| s.drained <= i < |s.log| && s.log[i].origin.FromDeparture? && k in SlotsIn(s.log[i]) {
      assert t.log[i] == s.log[i];
    }
    if i :| t.drained <= i < |t.log| && t.log[i].origin.FromDeparture? && k in SlotsIn(t.log[i]) {
      if i < |s.log| { assert t.log[i] == s.log[i]; } else { assert k in SlotsIn(messages[i - |s.log|]); }
    }
  }

  /** Another uuid's marker is not among the doomed keys. */
  lemma OthersAreNotDoomed(c: Codec, s: State, g: Gen, u: Uuid)
    requires Canonical(c) && Inv(c, s) && g in s.sess && s.sess[g].uuid != u
    ensures Marker(c, u) !in Tracked(s, s.sess[g].uuid) + s.sess[g].sent
  {
    MarkerIsOwn(c, u);
    DoomedIsOwned(c, s, g);
    hide Canonical, Inv, Tracked, ClassifyKey, IsMarker;
  }

  lemma SameCache(c: Codec, s: State, t: State, messages: seq<Msg>, k: Slot)
    requires s.drained == t.drained <= |s.log| && t.log == s.log + messages
    ensures Stands(c, t, k) == Stands(c, s, k)
  {
    assert t.log[..t.drained] == s.log[..s.drained];
  }

  lemma OtherViewsKept(c: Codec, s: State, t: State, g: Gen, pending: seq<Batch>, messages: seq<Msg>,
                       w: World, u: Uuid, seen: Option<int>)
    requires Canonical(c) && Inv(c, s) && Ownership(t) && InPhase(s, g, LIVE) && u != s.sess[g].uuid
    requires IsSweep(Tracked(s, s.sess[g].uuid) + s.sess[g].sent, pending) && AreBatches(g, pending, messages)
    requires DepartureRuns.Departed(s, t, g, messages)
    ensures Project(c, t, w, u, seen) == Project(c, s, w, u, seen)
  {
    hide LogOk, AllSweepsOk, AllKeysOk, ConnOk, Registered, SessionsOk, IsSweep, AreBatches, Marker, Tracked, Canonical,
         IsOwed, Stands, Held, Typed;
    OwedAfterDeparture(s, t, g, pending, messages, Marker(c, u));
    SameCache(c, s, t, messages, Marker(c, u));
    OthersAreNotDoomed(c, s, g, u);
    OthersKept(s, t, g, messages, u);
    hide DepartureRuns.Departed, Inv, Ownership, Project;
    SameView(c, s, t, w, u, seen);
  }

  lemma SameView(c: Codec, s: State, t: State, w: World, u: Uuid, seen: Option<int>)
    requires Ownership(s) && Ownership(t)
    requires u in t.registry <==> u in s.registry
    requires u in s.registry ==>
               t.registry[u] == s.registry[u] && InPhase(t, s.registry[u], LIVE) == InPhase(s, s.registry[u], LIVE)
    requires u in t.bouncers <==> u in s.bouncers
    requires u in s.bouncers ==> s.bouncers[u] in s.sess && t.bouncers[u] in t.sess
                                 && t.sess[t.bouncers[u]].sent == s.sess[s.bouncers[u]].sent
    requires (u in t.handlers <==> u in s.handlers) && (u in t.conn <==> u in s.conn)
             && (u in s.conn ==> t.conn[u] == s.conn[u])
    requires Stands(c, t, Marker(c, u)) == Stands(c, s, Marker(c, u))
             && IsOwed(t, Marker(c, u)) == IsOwed(s, Marker(c, u))
    ensures Project(c, t, w, u, seen) == Project(c, s, w, u, seen)
  {
    hide IsOwed, Stands, Marker, Ownership;
  }

  lemma OthersKept(s: State, t: State, g: Gen, messages: seq<Msg>, u: Uuid)
    requires Typed(s.sess, s.nextGen, s.registry) && Held(s.sess, s.bouncers)
    requires g in s.sess && u != s.sess[g].uuid && DepartureRuns.Departed(s, t, g, messages)
    ensures u in t.bouncers <==> u in s.bouncers
    ensures u in s.bouncers ==> s.bouncers[u] in s.sess && t.bouncers[u] in t.sess
                                && t.sess[t.bouncers[u]].sent == s.sess[s.bouncers[u]].sent
    ensures u in t.registry <==> u in s.registry
    ensures u in s.registry ==>
              t.registry[u] == s.registry[u] && InPhase(t, s.registry[u], LIVE) == InPhase(s, s.registry[u], LIVE)
    ensures (u in t.handlers <==> u in s.handlers) && (u in t.conn <==> u in s.conn)
            && (u in s.conn ==> t.conn[u] == s.conn[u])
  {
  }

  lemma OwnViewDeparts(c: Codec, s: State, t: State, g: Gen, pending: seq<Batch>, messages: seq<Msg>,
                       w: World, u: Uuid, seen: Option<int>)
    requires Canonical(c) && Inv(c, s) && Ownership(t) && InPhase(s, g, LIVE) && u == s.sess[g].uuid
    requires IsSweep(Tracked(s, s.sess[g].uuid) + s.sess[g].sent, pending) && AreBatches(g, pending, messages)
    requires DepartureRuns.Departed(s, t, g, messages)
    ensures Project(c, t, w, u, seen) == Departs(Project(c, s, w, u, seen))
  {
    hide LogOk, AllSweepsOk, AllKeysOk, ConnOk, Typed, Registered, SessionsOk, IsSweep, AreBatches, Marker;
    OwedAfterDeparture(s, t, g, pending, messages, Marker(c, u));
    SameCache(c, s, t, messages, Marker(c, u));
    OwnMaps(s, g);
    NoRecordWithoutClient(s, g);
    hide IsOwed, Stands, Canonical, Inv, Held, Ownership;
  }

  /** An uninterrupted departure is, to the sweep, exactly Departs; other uuids look the same. */
  lemma DepartureIsDeparts(c: Codec, s: State, t: State, g: Gen, pending: seq<Batch>, messages: seq<Msg>,
                           w: World, u: Uuid, seen: Option<int>)
    requires Canonical(c) && Inv(c, s) && Ownership(t) && InPhase(s, g, LIVE)
    requires IsSweep(Tracked(s, s.sess[g].uuid) + s.sess[g].sent, pending) && AreBatches(g, pending, messages)
    requires DepartureRuns.Departed(s, t, g, messages)
    ensures Project(c, t, w, u, seen)
            == if u == s.sess[g].uuid then Departs(Project(c, s, w, u, seen)) else Project(c, s, w, u, seen)
  {
    hide Project, Departs, Inv, IsSweep, AreBatches, Ownership;
    if u == s.sess[g].uuid {
      OwnViewDeparts(c, s, t, g, pending, messages, w, u, seen);
    } else {
      OtherViewsKept(c, s, t, g, pending, messages, w, u, seen);
    }
  }

  function WithOrphan(s: State, u: Uuid): State {
    s.(sess := s.sess[s.nextGen := NewSession(u, true)], nextGen := s.nextGen + 1,
        registry := s.registry[u := s.nextGen])
  }

  lemma OrphanIs(c: Codec, s: State, u: Uuid)
    requires Enabled(c, s, RegisterOrphan(u))
    ensures Next(c, s, RegisterOrphan(u)) == WithOrphan(s, u) && u !in s.registry && u != NIL
  {
  }

  /** A synthetic entry changes nothing the sweep sees but the entry itself. */
  lemma OrphanIsAnEntry(c: Codec, s: State, u: Uuid, w: World, x: Uuid, seen: Option<int>)
    requires Ownership(s) && Ownership(WithOrphan(s, u))
    ensures Project(c, WithOrphan(s, u), w, x, seen).(entry := None) == Project(c, s, w, x, seen).(entry := None)
  {
    OldGensStay(s, x);
    hide Ownership, Project, NewSession;
    SameButEntry(c, s, WithOrphan(s, u), w, x, seen);
  }

  lemma SameButEntry(c: Codec, s: State, t: State, w: World, x: Uuid, seen: Option<int>)
    requires Ownership(s) && Ownership(t) && t == s.(sess := t.sess, nextGen := t.nextGen, registry := t.registry)
    requires x in s.bouncers ==>
               s.bouncers[x] in s.sess && s.bouncers[x] in t.sess && t.sess[s.bouncers[x]] == s.sess[s.bouncers[x]]
    ensures Project(c, t, w, x, seen).(entry := None) == Project(c, s, w, x, seen).(entry := None)
  {
    hide IsOwed, Stands, Marker, Ownership, InfoOf;
    OwnershipDrains(s);
    SameQueueSameMarker(c, s, t, Marker(c, x));
  }

  lemma OwnershipDrains(s: State)
    requires Ownership(s)
    ensures s.drained <= |s.log|
  {
  }

  lemma SameQueueSameMarker(c: Codec, s: State, t: State, k: Slot)
    requires t.log == s.log && t.drained == s.drained <= |s.log|
    ensures IsOwed(t, k) == IsOwed(s, k) && Stands(c, t, k) == Stands(c, s, k)
  {
  }

  lemma OrphanLeavesEntries(s: State, u: Uuid, w: World, x: Uuid)
    requires Ownership(s) && u !in s.registry
    ensures x != u ==> InfoOf(WithOrphan(s, u), w, x) == InfoOf(s, w, x)
    ensures InfoOf(s, w, u) == None
  {
    OldGensStay(s, x);
    hide Ownership;
  }

  lemma OldGensStay(s: State, x: Uuid)
    requires Ownership(s)
    ensures x in s.registry ==> s.registry[x] in s.sess && s.registry[x] != s.nextGen
    ensures x in s.bouncers ==> s.bouncers[x] in s.sess && s.bouncers[x] != s.nextGen
  {
    assert Typed(s.sess, s.nextGen, s.registry) && Held(s.sess, s.bouncers);
  }

  // ------------------------------------------------------------------ the dispatcher, as the sweep sees it

  function Dispatched(c: Codec, s: State): State
    requires s.drained < |s.log|
  {
    var m := s.log[s.drained];
    s.(drained := s.drained + 1, conn := Track(c, s.conn, m.source, m.topic, m.ops))
  }

  lemma DrainIs(c: Codec, s: State)
    requires s.drained < |s.log|
    ensures Enabled(c, s, Drain) && Next(c, s, Drain) == Dispatched(c, s)
  {
  }

  /** One message of a departure dispatched: what it owed is settled, and all else is as it was. */
  lemma DrainOne(c: Codec, s: State, w: World, u: Uuid, seen: Option<int>)
    requires Canonical(c) && Inv(c, s) && s.drained < |s.log| && s.log[s.drained].origin.FromDeparture?
    requires Inv(c, Dispatched(c, s))
    ensures Drained(Project(c, Dispatched(c, s), w, u, seen)) == Drained(Project(c, s, w, u, seen))
  {
    var t, k := Dispatched(c, s), Marker(c, u);
    LoggedIsOk(c, s.sess, s.log, s.drained);
    OwedUntilDrained(s, t, k);
    DrainStands(c, s, t, k);
    DrainUntracks(c, s, u);
    SameEntries(c, s, t, w, u, seen);
    hide *;
    hide Project, Inv, Dispatched, Marker, IsOwed, Stands;
    DrainedAlike(Project(c, s, w, u, seen), Project(c, t, w, u, seen), k in SlotsIn(s.log[s.drained]));
  }

  /** hit: the message dispatched carries the tombstone of the marker. */
  lemma DrainedAlike(v: View, after: View, hit: bool)
    requires after == v.(tracked := after.tracked, marker := after.marker, owed := after.owed)
    requires after.marker == (v.marker && !hit) && v.owed == (hit || after.owed)
    requires after.tracked == if v.tracked.Some? then Some(v.tracked.value && !hit) else None
    ensures Drained(after) == Drained(v)
  {
    match v.tracked
    case None =>
    case Some(true) => assert after.tracked == Some(!hit);
    case Some(false) => assert after.tracked == Some(false);
  }

  lemma OwedUntilDrained(s: State, t: State, k: Slot)
    requires s.drained < |s.log| && t.log == s.log && t.drained == s.drained + 1
             && s.log[s.drained].origin.FromDeparture?
    ensures IsOwed(s, k) <==> k in SlotsIn(s.log[s.drained]) || IsOwed(t, k)
  {
    hide SlotsIn;
  }

  lemma DrainStands(c: Codec, s: State, t: State, k: Slot)
    requires s.drained < |s.log| && t.log == s.log && t.drained == s.drained + 1
    requires MsgOk(c, s.sess, s.log[s.drained]) && s.log[s.drained].origin.FromDeparture?
    ensures Stands(c, t, k) <==> Stands(c, s, k) && k !in SlotsIn(s.log[s.drained])
  {
    var m := s.log[s.drained];
    assert s.log[..s.drained + 1][..s.drained] == s.log[..s.drained];
    StoreAt(c, CacheOf(c, s.log[..s.drained]), m, m.ops, k);
    InSlots(m, k);
    hide ClassifyKey, SlotsIn, KeysOf, AllOwned;
  }

  lemma DrainUntracks(c: Codec, s: State, u: Uuid)
    requires Canonical(c) && Inv(c, s) && s.drained < |s.log| && Inv(c, Dispatched(c, s))
    requires s.log[s.drained].origin.FromDeparture?
    ensures var conn := Dispatched(c, s).conn;
            && (u in conn <==> u in s.conn)
            && (u in s.conn ==> (Marker(c, u) in conn[u]
                  <==> Marker(c, u) in s.conn[u] && Marker(c, u) !in SlotsIn(s.log[s.drained])))
  {
    var m := s.log[s.drained];
    MarkerIsOwn(c, u);
    LoggedIsOk(c, s.sess, s.log, s.drained);
    AreAllTombstones(c, s.sess, m);
    NilHasNoKeys(c, s);
    NilHasNoKeys(c, Dispatched(c, s));
    hide Canonical, Inv, MsgOk, ClassifyKey, Track, KeysOf, IsMarker;
    if u != NIL { TombstonesUntrack(c, s.conn, m.topic, m.ops, u); }
  }

  lemma AreAllTombstones(c: Codec, sess: Sessions, m: Msg)
    requires MsgOk(c, sess, m) && m.origin.FromDeparture?
    ensures m.source == NIL && forall i :: 0 <= i < |m.ops| ==> m.ops[i].tombstone
  {
  }

  lemma NilHasNoKeys(c: Codec, s: State)
    requires Inv(c, s)
    ensures NIL !in s.conn
  {
  }

  lemma SameEntries(c: Codec, s: State, t: State, w: World, u: Uuid, seen: Option<int>)
    requires Ownership(s) && Ownership(t) && t == s.(drained := t.drained, conn := t.conn)
    ensures var v, after := Project(c, s, w, u, seen), Project(c, t, w, u, seen);
            after == v.(tracked := after.tracked, marker := after.marker, owed := after.owed)
  {
    hide IsOwed, Stands, Marker;
  }

  lemma NoRecordWithoutClient(s: State, g: Gen)
    requires SessionsOk(s.sess) && g in s.sess
    ensures s.sess[g].orphan ==> s.sess[g].sent == {}
  {
    SessionFacts(s, g);
  }

  lemma DoomedIsOwned(c: Codec, s: State, g: Gen)
    requires Inv(c, s) && g in s.sess
    ensures AllOwned(c, s.sess[g].uuid, Tracked(s, s.sess[g].uuid) + s.sess[g].sent)
  {
    assert KeysOk(c, s.sess[g]);
  }

  /** Dispatching a departure's batch untracks its keys and adds none. */
  lemma {:induction false} TombstonesUntrack(c: Codec, conn: map<Uuid, set<Slot>>, topic: string, ops: seq<ParsedOp>,
                                             u: Uuid)
    requires u != NIL && (forall i :: 0 <= i < |ops| ==> ops[i].tombstone)
    ensures var after := Track(c, conn, NIL, topic, ops);
            && (u in after <==> u in conn)
            && (u in conn ==> forall k :: k in after[u] <==>
                  k in conn[u] && !(k in SlotsOf(Batch(topic, KeysOf(ops))) && ClassifyKey(c, topic, k.key).1 == u))
  {
    hide ClassifyKey;
    if ops != [] {
      var n := |ops| - 1;
      TombstonesUntrack(c, conn, topic, ops[..n], u);
      KeysOfLast(ops);
      hide KeysOf;
    }
  }
}
