/**
 * Two ends of the departure protocol: what is left once everything has come to rest, and the one trigger that
 * looks its entry up by uuid.
 */
module ProtocolRest {
  import opened Common
  import opened Scope
  import opened Protocol
  import opened ProtocolOrder
  import opened ProtocolSafety

  // ------------------------------------------------------------------ at rest

  /** No departure is under way, nothing is in flight and the dispatcher has drained the queue. */
  ghost predicate Resting(s: State) {
    && s.drained == |s.log|
    && forall g :: g in s.sess ==> s.sess[g].inflight == multiset{} && s.sess[g].phase in {LIVE, FINISHED}
  }

  lemma MarkersAreConnectionScoped(c: Codec, k: Slot)
    requires Canonical(c) && IsMarker(c, k)
    ensures ClassifyKey(c, k.topic, k.key) == (Connection, c.parse(k.key).value)
  {
    CutWhole(k.key);
  }

  /** At rest, whoever holds a handler, a bouncer or a standing existence marker is a registered live session. */
  lemma NoGhostsAtRest(c: Codec, s: State, k: Slot)
    requires Canonical(c) && Reachable(c, s) && Resting(s)
    requires IsMarker(c, k) && k in CacheOf(c, s.log) && !CacheOf(c, s.log)[k].tombstone
    ensures var u := c.parse(k.key).value;
            u in s.registry && InPhase(s, s.registry[u], LIVE) && !s.sess[s.registry[u]].orphan
            && k in s.sess[s.registry[u]].sent
  {
    ReachableInv(c, s);
    CacheNamesTheLastWriter(c, s.log, k);
    var j := LastWriter(c, s.log, k).value;
    MarkersAreConnectionScoped(c, k);
    MarkerComesFromItsSession(c, s, j, k);
    var g := s.log[j].origin.gen;
    if s.sess[g].phase == FINISHED {
      hide Inv, Reachable, CacheOf, LastWriter, SlotsIn, MsgOk, IsMarker, Writes;
      LastWord(c, s, g, j, k);
      assert false;
    }
    hide CacheOf, LastWriter, SlotsIn, IsMarker, Writes;
    LiveSessionsOwnTheirUuid(c, s, g);
  }

  lemma MarkerComesFromItsSession(c: Codec, s: State, j: nat, k: Slot)
    requires Inv(c, s) && j < |s.log| && Writes(c, s.log[j], k) && IsMarker(c, k)
    requires ClassifyKey(c, k.topic, k.key) == (Connection, c.parse(k.key).value)
    requires !AreTombstones(s.log[j].ops, KeysOf(s.log[j].ops))
    ensures var m := s.log[j];
            m.origin.FromSession? && m.origin.announced && k in SlotsIn(m)
            && m.origin.gen in s.sess && !s.sess[m.origin.gen].orphan
               && s.sess[m.origin.gen].uuid == c.parse(k.key).value
            && k in Announced(s.sess[m.origin.gen])
  {
    var m := s.log[j];
    assert MsgOk(c, s.sess, m);
    assert k in SlotsIn(m);
    var i :| 0 <= i < |m.ops| && m.ops[i].key == k.key;
    if m.origin.FromSession? {
      assert KeysOk(c, s.sess[m.origin.gen]);
    }
  }

  lemma HoldersAreLiveAtRest(c: Codec, s: State, u: Uuid)
    requires Reachable(c, s) && Resting(s) && (u in s.handlers || u in s.bouncers)
    ensures u in s.registry && InPhase(s, s.registry[u], LIVE)
            && Lookup(s.handlers, u) == Lookup(s.bouncers, u) == Some(s.registry[u])
  {
    ReachableInv(c, s);
    hide LogOk, AllKeysOk, ConnOk, AllSweepsOk, SessionsOk;
    HolderIsLive(s, s.handlers, u);
    HolderIsLive(s, s.bouncers, u);
    hide Inv, Ownership, Reachable, Resting;
    if u in s.handlers { LiveSessionsOwnTheirUuid(c, s, s.handlers[u]); }
    if u in s.bouncers { LiveSessionsOwnTheirUuid(c, s, s.bouncers[u]); }
  }

  lemma HolderIsLive(s: State, held: map<Uuid, Gen>, u: Uuid)
    requires Held(s.sess, held) && Resting(s)
    ensures u in held ==> InPhase(s, held[u], LIVE) && s.sess[held[u]].uuid == u && !s.sess[held[u]].orphan
  {
  }

  // ------------------------------------------------------------------ FreeSource

  /** The mixer ends a live session exactly when the removal it processes names that uuid and the node is there. */
  lemma MixerEndsExactly(c: Codec, s: State, g: Gen)
    requires Reachable(c, s) && InPhase(s, g, LIVE) && s.mixer != []
    ensures InPhase(Next(c, s, MixerStep), g, LIVE)
            <==> !(s.mixer[0] == DeleteNode(s.sess[g].uuid) && s.sess[g].uuid in s.nodes)
  {
    hide Reachable, LogOk, AllKeysOk, ConnOk, AllSweepsOk, SessionsOk, Next;
    LiveSessionsOwnTheirUuid(c, s, g);
    assert forall u :: u in s.registry && s.registry[u] == g ==> s.sess[g].uuid == u by {
      ReachableInv(c, s);
      assert Typed(s.sess, s.nextGen, s.registry);
    }
    OtherStep(c, s, MixerStep);
    hide Enabled;
  }

  /** No removal of a live session's uuid is waiting for the mixer. */
  ghost predicate NoStaleRemoval(s: State) {
    forall g :: InPhase(s, g, LIVE) && !s.sess[g].orphan ==> DeleteNode(s.sess[g].uuid) !in s.mixer
  }

  /** The hypothesis: a session registers only when the mixer has no removal of its uuid left to process. */
  predicate RemovalsFirst(s: State, e: Step) { e.Admit? ==> DeleteNode(e.u) !in s.mixer }

  lemma MixerQueue(c: Codec, s: State, e: Step)
    requires Enabled(c, s, e)
    ensures Next(c, s, e).mixer ==
            match e
            case Admit(u, _) => s.mixer + [AddNode(u)]
            case EnqueueDelete(g) => s.mixer + [DeleteNode(s.sess[g].uuid)]
            case MixerStep => s.mixer[1..]
            case _ => s.mixer
  {
    hide Track, IsSweep, AllOwned, SlotsOf, KeysOf, IsMarker, DoomedBy, AreTombstones, ClassifyKey, Without,
         FreesSource;
    if e.MixerStep? {
      assert Next(c, s, MixerStep).mixer == s.mixer[1..];
    }
  }

  /** A session that is live after a step was live before it, or is the one just admitted, or is an orphan entry. */
  lemma LiveBefore(c: Codec, s: State, e: Step, g: Gen)
    requires Ownership(s) && Enabled(c, s, e) && InPhase(Next(c, s, e), g, LIVE) && !Next(c, s, e).sess[g].orphan
    ensures var x := Next(c, s, e).sess[g];
            (InPhase(s, g, LIVE) && s.sess[g].uuid == x.uuid && !s.sess[g].orphan) || (e.Admit? && x.uuid == e.u)
  {
    hide Ownership, AllEvolve, Next, Enabled, IsLocal, IsMarker, AllOwned;
    StepEvolves(c, s, e);
    if g in s.sess { EvolvedFrom(s.sess, Next(c, s, e).sess, g); } else { OnlyNewcomersAreNew(c, s, e, g); }
  }

  lemma EvolvedFrom(before: Sessions, after: Sessions, g: Gen)
    requires AllEvolve(before, after) && g in before
    ensures g in after && after[g].uuid == before[g].uuid && after[g].orphan == before[g].orphan
            && before[g].phase <= after[g].phase
  {
  }

  lemma OnlyNewcomersAreNew(c: Codec, s: State, e: Step, g: Gen)
    requires Ownership(s) && Enabled(c, s, e) && g !in s.sess && g in Next(c, s, e).sess
    ensures var x := Next(c, s, e).sess[g]; (e.Admit? && x == NewSession(e.u, false)) || x.orphan
  {
    if IsLocal(e) {
      LocalStep(c, s, e);
      hide *;
    } else {
      OtherStep(c, s, e);
      TouchedMovesOn(c, s, e);
      hide Next, Enabled, Ownership, Touched, IsLocal;
    }
  }

  lemma NextKeepsNoStaleRemoval(c: Codec, s: State, e: Step)
    requires Ownership(s) && NoStaleRemoval(s) && Enabled(c, s, e) && RemovalsFirst(s, e)
    ensures NoStaleRemoval(Next(c, s, e))
  {
    MixerQueue(c, s, e);
    var t := Next(c, s, e);
    forall g | InPhase(t, g, LIVE) && !t.sess[g].orphan
      ensures DeleteNode(t.sess[g].uuid) !in t.mixer
    {
      LiveBefore(c, s, e, g);
      SweepersAreAlone(s.sess, s.registry, g);
      hide Next, Ownership, Registered;
    }
  }

  /** While one entry sweeps, no other entry of its uuid is live. */
  lemma SweepersAreAlone(sess: Sessions, registry: map<Uuid, Gen>, g: Gen)
    requires Registered(sess, registry)
    ensures forall h :: g in sess && h in sess && sess[g].phase == LIVE && sess[h].phase == ANNOUNCING ==>
              sess[g].uuid != sess[h].uuid
  {
  }

  /** If every admission found the mixer's removals of its uuid processed, the mixer ends no live session, ever. */
  lemma {:induction false} RemovalsFirstSparesSuccessors(c: Codec, states: seq<State>, steps: seq<Step>, i: nat, g: Gen)
    requires Run(c, states, steps) && (forall k :: 0 <= k < |steps| ==> RemovalsFirst(states[k], steps[k]))
    requires i < |steps| && steps[i] == MixerStep && InPhase(states[i], g, LIVE) && !states[i].sess[g].orphan
    ensures InPhase(states[i + 1], g, LIVE)
  {
    RunKeepsNoStaleRemoval(c, states, steps, i);
    PrefixReachable(c, states, steps, i);
    hide Reachable, RemovalsFirst, Next;
    assert Enabled(c, states[i], MixerStep) && states[i + 1] == Next(c, states[i], MixerStep);
    hide Run;
    MixerEndsExactly(c, states[i], g);
  }

  lemma PrefixReachable(c: Codec, states: seq<State>, steps: seq<Step>, i: nat)
    requires Run(c, states, steps) && i <= |steps|
    ensures Reachable(c, states[i])
  {
    hide Enabled, Next;
    assert Run(c, states[..i + 1], steps[..i]);
  }

  lemma {:induction false} RunKeepsNoStaleRemoval(c: Codec, states: seq<State>, steps: seq<Step>, i: nat)
    requires Run(c, states, steps) && (forall k :: 0 <= k < |steps| ==> RemovalsFirst(states[k], steps[k]))
             && i <= |steps|
    ensures NoStaleRemoval(states[i])
  {
    if i > 0 {
      RunKeepsNoStaleRemoval(c, states, steps, i - 1);
      RunKeepsInv(c, states, steps, i - 1);
      hide Next, Enabled, NoStaleRemoval, RemovalsFirst, Ownership, LogOk, AllKeysOk, ConnOk, AllSweepsOk;
      NextKeepsNoStaleRemoval(c, states[i - 1], steps[i - 1]);
    }
  }

  // A run that meets the hypothesis nowhere: the first session's removal is still queued when the second one registers.

  function Gone(phase: nat): Session {
    Session(7, false, phase, Some(1), Some(1), {}, [], true, true, multiset{}, {}, {})
  }

  function FirstGone(phase: nat): State {
    State(map[1 := Gone(phase)], 2, map[7 := 1], map[7 := 1], map[7 := 1], map[], [], 0, [], {7})
  }

  lemma FirstIsAdmitted(c: Codec)
    ensures var x := NewSession(7, false);
            Reachable(c, State(map[1 := x.(phase := SEVERED)], 2, map[7 := 1], map[7 := 1], map[7 := 1], map[], [], 0,
                [], {7}))
  {
    InitReachable(c);
    hide Reachable;
    var s0 := Init();
    var s1 := Next(c, s0, Admit(7, false));
    StepReaches(c, s0, Admit(7, false));
    var s2 := Next(c, s1, MixerStep);
    StepReaches(c, s1, MixerStep);
    StepReaches(c, s2, Begin(1));
    assert Next(c, s2, Begin(1))
        == State(map[1 := NewSession(7, false).(phase := SEVERED)], 2, map[7 := 1], map[7 := 1], map[7 := 1], map[], [],
            0, [], {7});
  }

  lemma FirstIsQuitting(c: Codec)
    ensures Reachable(c, FirstGone(QUITTING).(sess := map[1 := Gone(QUITTING).(stopped := false)]))
  {
    FirstIsAdmitted(c);
    hide Reachable;
    var s3 := State(map[1 := NewSession(7, false).(phase := SEVERED)], 2, map[7 := 1], map[7 := 1], map[7 := 1], map[],
        [], 0, [], {7});
    var s4 := s3.(sess := map[1 := NewSession(7, false).(phase := CAPTURED, handler := Some(1), bouncer := Some(1))]);
    assert Next(c, s3, Capture(1)) == s4;
    StepReaches(c, s3, Capture(1));
    StepReaches(c, s4, CloseQuit(1));
    assert Next(c, s4, CloseQuit(1)).sess == map[1 := Gone(QUITTING).(stopped := false)];
  }

  lemma FirstIsStopped(c: Codec)
    ensures Reachable(c, FirstGone(TRACKED))
  {
    FirstIsQuitting(c);
    hide Reachable;
    var s5 := FirstGone(QUITTING).(sess := map[1 := Gone(QUITTING).(stopped := false)]);
    assert Next(c, s5, Barrier(1)) == FirstGone(BARRED);
    StepReaches(c, s5, Barrier(1));
    StepReaches(c, FirstGone(BARRED), SnapshotTracked(1));
    assert Next(c, FirstGone(BARRED), SnapshotTracked(1)) == FirstGone(TRACKED);
  }

  /** The first session gone, its removal still queued, and the second one admitted behind it. */
  function SecondAdmitted(): State {
    State(map[1 := Gone(FINISHED), 2 := NewSession(7, false)], 3, map[7 := 2], map[7 := 2], map[7 := 2], map[], [], 0,
          [DeleteNode(7), AddNode(7)], {7})
  }

  lemma FirstIsReleased(c: Codec)
    ensures Reachable(c, State(map[1 := Gone(RELEASED)], 2, map[7 := 1], map[], map[], map[], [], 0, [DeleteNode(7)],
            {7}))
  {
    FirstIsStopped(c);
    hide Reachable;
    var s7 := FirstGone(TRACKED);
    assert DoomedBy(s7, 1) == {};
    var s8 := Next(c, s7, TakeSent(1, []));
    StepReaches(c, s7, TakeSent(1, []));
    var s9 := Next(c, s8, EnqueueDelete(1));
    StepReaches(c, s8, EnqueueDelete(1));
    assert s9.sess == map[1 := Gone(REMOVED)] && s9.mixer == [DeleteNode(7)];
    assert Without(s9.handlers, 7, Some(1)) == Without(s9.bouncers, 7, Some(1)) == map[] && s9.conn - {7} == map[];
    StepReaches(c, s9, Release(1));
    assert Next(c, s9, Release(1))
        == State(map[1 := Gone(RELEASED)], 2, map[7 := 1], map[], map[], map[], [], 0, [DeleteNode(7)], {7});
  }

  lemma SecondIsAdmitted(c: Codec)
    ensures Reachable(c, SecondAdmitted())
  {
    FirstIsReleased(c);
    hide Reachable;
    var s10 := State(map[1 := Gone(RELEASED)], 2, map[7 := 1], map[], map[], map[], [], 0, [DeleteNode(7)], {7});
    var s11 := Next(c, s10, Unregister(1));
    StepReaches(c, s10, Unregister(1));
    var s12 := Next(c, s11, MarkDeparted(1));
    StepReaches(c, s11, MarkDeparted(1));
    StepReaches(c, s12, Admit(7, true));
    assert Next(c, s12, Admit(7, true)) == SecondAdmitted();
  }

  /** A removal processed late departs the successor: every trigger in this run is the first session's own. */
  lemma FreeSourceDepartsTheSuccessor(c: Codec)
    ensures var s := SecondAdmitted();
            && Reachable(c, s) && Enabled(c, s, MixerStep)
            && InPhase(s, 1, FINISHED) && InPhase(s, 2, LIVE) && !s.sess[2].orphan && s.sess[1].uuid == s.sess[2].uuid
            && InPhase(Next(c, s, MixerStep), 2, SEVERED)
  {
    SecondIsAdmitted(c);
    hide Reachable;
  }
}
