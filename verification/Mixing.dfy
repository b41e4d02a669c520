/**
 * Convergence and the mixer: its queue may still hold removals when everything has come to rest, and a removal it gets
 * to late begins a departure. When none is late, passes and mixer steps in any order keep what the passes have reached.
 */
module Mixing {
  import opened Common
  import opened Scope
  import opened Protocol
  import opened ProtocolOrder
  import opened ProtocolSafety
  import opened ProtocolRest
  import opened Departure
  import opened DepartureRuns
  import opened Reconciler
  import opened Convergence
  import opened Passes

  function Mixed(nodes: set<Uuid>, e: Change): set<Uuid> {
    match e
    case AddNode(u) => nodes + {u}
    case DeleteNode(u) => nodes - {u}
  }

  /** The mixer's step when it ends no session. */
  function Advanced(s: State): State
    requires s.mixer != []
  {
    s.(mixer := s.mixer[1..], nodes := Mixed(s.nodes, s.mixer[0]))
  }

  /** The mixer's step, whether or not it ends a session. */
  lemma MixerStepIs(c: Codec, s: State)
    requires s.mixer != []
    ensures Enabled(c, s, MixerStep)
    ensures Next(c, s, MixerStep)
         == if FreesSource(s) then SetPhase(Advanced(s), s.registry[s.mixer[0].u], SEVERED) else Advanced(s)
  {
  }

  lemma MixerStepLeads(c: Codec, s: State)
    requires Reachable(c, s) && s.mixer != []
    ensures Reachable(c, Next(c, s, MixerStep)) && LeadsTo(c, s, Next(c, s, MixerStep))
  {
    MixerStepIs(c, s);
    hide Reachable, Enabled, Next, LeadsTo;
    StepReaches(c, s, MixerStep);
    Start(c, s);
    ThenStep(c, s, s, MixerStep);
  }

  /** A mixer step keeps the system at rest, and what it has converged to, exactly when it ends no session. */
  lemma MixerKeepsRestExactly(c: Codec, s: State, w: World)
    requires Reachable(c, s) && Resting(s) && s.mixer != []
    ensures var t := Next(c, s, MixerStep);
            && Reachable(c, t) && LeadsTo(c, s, t)
            && (Resting(t) <==> !FreesSource(s))
            && (!FreesSource(s) ==> t.drained <= |t.log| && (Converged(c, t, w) <==> Converged(c, s, w)))
  {
    MixerStepLeads(c, s);
    MixerStepIs(c, s);
    hide Next, Reachable, LeadsTo;
    var t := Next(c, s, MixerStep);
    if FreesSource(s) {
      assert t.sess[s.registry[s.mixer[0].u]].phase == SEVERED;
    } else {
      SameConvergence(c, s, t, w);
    }
  }

  /** The mixer's queue and nodes play no part in convergence. */
  lemma SameConvergence(c: Codec, s: State, t: State, w: World)
    requires t == s.(mixer := t.mixer, nodes := t.nodes) && s.drained <= |s.log|
    ensures Converged(c, t, w) <==> Converged(c, s, w)
  {
    forall u
      ensures IsDerived(c, t, u) <==> IsDerived(c, s, u)
    {
      assert forall k :: Stands(c, t, k) <==> Stands(c, s, k);
    }
    hide IsDerived, Stands;
  }

  // ------------------------------------------------------------------ the mixer's queue worked off

  function MixAll(c: Codec, s: State): State
    decreases |s.mixer|
  {
    if s.mixer == [] then s
    else
      MixerStepIs(c, s);
      MixAll(c, Next(c, s, MixerStep))
  }

  /** No removal in the queue finds, when its turn comes, the node there and the uuid registered. */
  predicate Spared(nodes: set<Uuid>, mixer: seq<Change>, registry: map<Uuid, Gen>)
    decreases |mixer|
  {
    mixer == []
    || (!(mixer[0].DeleteNode? && mixer[0].u in nodes && mixer[0].u in registry)
        && Spared(Mixed(nodes, mixer[0]), mixer[1..], registry))
  }

  lemma FreesAtRest(c: Codec, s: State)
    requires Reachable(c, s) && Resting(s) && s.mixer != []
    ensures FreesSource(s) <==> s.mixer[0].DeleteNode? && s.mixer[0].u in s.nodes && s.mixer[0].u in s.registry
  {
    ReachableInv(c, s);
    RegisteredAtRest(s, s.mixer[0].u);
  }

  /** A departure begun by the mixer does not end by mixing. */
  lemma {:induction false} SeveredStays(c: Codec, s: State, g: Gen)
    requires InPhase(s, g, SEVERED)
    ensures InPhase(MixAll(c, s), g, SEVERED)
    decreases |s.mixer|
  {
    if s.mixer != [] {
      MixerStepIs(c, s);
      hide Next;
      SeveredStays(c, Next(c, s, MixerStep), g);
    }
  }

  /** Working the queue off leaves the system at rest, and converged if it was, exactly when every session is spared. */
  lemma {:induction false} MixingDryRestsExactly(c: Codec, s: State, w: World)
    requires Reachable(c, s) && Resting(s)
    ensures Resting(MixAll(c, s)) <==> Spared(s.nodes, s.mixer, s.registry)
    ensures Resting(MixAll(c, s)) ==>
              Reachable(c, MixAll(c, s)) && MixAll(c, s).mixer == [] && LeadsTo(c, s, MixAll(c, s))
              && (Converged(c, MixAll(c, s), w) <==> Converged(c, s, w))
    decreases |s.mixer|
  {
    if s.mixer == [] {
      hide Reachable, LeadsTo;
      Start(c, s);
    } else {
      MixerKeepsRestExactly(c, s, w);
      MixerStepIs(c, s);
      FreesAtRest(c, s);
      hide Next, FreesSource, Reachable, LeadsTo, Converged;
      var t := Next(c, s, MixerStep);
      if FreesSource(s) {
        SeveredStays(c, t, s.registry[s.mixer[0].u]);
      } else {
        MixingDryRestsExactly(c, t, w);
        if Resting(MixAll(c, t)) { LeadsToOn(c, s, t, MixAll(c, t)); }
        hide Resting;
      }
    }
  }

  /** The state in which a removal is processed late has converged; mixing begins a departure all the same. */
  lemma LateRemovalUnsettles(c: Codec, w: World)
    requires 2 !in w.dead
    ensures var s := SecondAdmitted();
            Reachable(c, s) && Resting(s) && Converged(c, s, w) && !Spared(s.nodes, s.mixer, s.registry)
    ensures !Resting(MixAll(c, SecondAdmitted()))
  {
    var s := SecondAdmitted();
    FreeSourceDepartsTheSuccessor(c);
    assert s.log[..s.drained] == [];
    forall u | IsDerived(c, s, u)
      ensures u == 7
    {
      assert forall k :: !Stands(c, s, k);
    }
    hide Reachable;
    MixingDryRestsExactly(c, s, w);
  }

  // ------------------------------------------------------------------ passes and mixer steps in any order

  /** No removal of a registered uuid is waiting for the mixer. */
  ghost predicate NoRemovalWaiting(s: State) { forall u :: u in s.registry ==> DeleteNode(u) !in s.mixer }

  lemma NoRemovalSpares(s: State)
    requires NoRemovalWaiting(s) && s.mixer != []
    ensures !FreesSource(s) && NoRemovalWaiting(Advanced(s))
  {
  }

  lemma OneDepartsLeavesNone(c: Codec, s: State, u: Uuid, orphan: bool, t: State)
    requires Inv(c, s) && NoRemovalWaiting(s) && OneDeparts(c, s, u, orphan, t)
    ensures NoRemovalWaiting(t)
  {
    hide Inv, Enabled, LeadsTo;
    if orphan { OrphanIs(c, s, u); } else { RegisteredIs(c, s, u); }
  }

  lemma {:induction false} AllDepartLeavesNone(c: Codec, s: State, us: seq<Uuid>, orphan: bool, t: State)
    requires Calm(c, s) && NoRemovalWaiting(s) && AllDepart(c, s, us, orphan, t)
    ensures NoRemovalWaiting(t)
    decreases |us|
  {
    hide Calm, LeadsTo, OneDeparts, NoRemovalWaiting;
    if us != [] {
      var m :| AllDepart(c, s, Front(us), orphan, m) && OneDeparts(c, m, Last(us), orphan, t);
      AllDepartKeepsCalm(c, s, Front(us), orphan, m);
      AllDepartLeavesNone(c, s, Front(us), orphan, m);
      CalmOwns(c, m);
      OneDepartsLeavesNone(c, m, Last(us), orphan, t);
    }
  }

  lemma {:induction false} DrainingTouchesNoRemoval(c: Codec, s: State)
    ensures DrainAll(c, s).mixer == s.mixer && DrainAll(c, s).registry == s.registry
    decreases |s.log| - s.drained
  {
    hide Track;
    if s.drained < |s.log| { DrainingTouchesNoRemoval(c, Dispatched(c, s)); }
  }

  /** A pass enqueues removals of the uuids it departs, and those are no longer registered. */
  lemma PassLeavesNoRemoval(c: Codec, s: State, w: World, seen: map<Uuid, int>, now: int, minAge: int, t: State,
                            after: map<Uuid, int>)
    requires Reachable(c, s) && Resting(s) && NoRemovalWaiting(s) && IsPass(c, s, w, seen, now, minAge, t, after)
    ensures NoRemovalWaiting(t)
  {
    hide Reachable, Resting, Calm, AllDepart, Ownership, AreDead, Sighted, AreOrphaned, LeadsTo;
    var dead, orphaned, m, n :|
      && AreDead(s, w, now, minAge, dead) && AllDepart(c, s, dead, false, m)
      && Ownership(m) && AreOrphaned(c, m, w, seen, now, minAge, orphaned) && AllDepart(c, m, orphaned, true, n)
      && Sighted(c, m, w, seen, now, minAge, after) && t == DrainAll(c, n);
    RestIsCalm(c, s);
    AllDepartKeepsCalm(c, s, dead, false, m);
    AllDepartLeavesNone(c, s, dead, false, m);
    AllDepartLeavesNone(c, m, orphaned, true, n);
    DrainingTouchesNoRemoval(c, n);
  }

  datatype Round = Sweep(now: int) | Mix

  ghost predicate IsRound(c: Codec, s: State, w: World, seen: map<Uuid, int>, r: Round, minAge: int, t: State,
                          after: map<Uuid, int>) {
    match r
    case Sweep(now) => IsPass(c, s, w, seen, now, minAge, t, after)
    case Mix => s.mixer != [] && Enabled(c, s, MixerStep) && t == Next(c, s, MixerStep) && after == seen
  }

  ghost predicate AllRounds(c: Codec, s: State, w: World, seen: map<Uuid, int>, rounds: seq<Round>, minAge: int,
                            t: State)
    decreases |rounds|
  {
    if rounds == [] then t == s
    else
      exists m, after ::
        IsRound(c, s, w, seen, rounds[0], minAge, m, after) && AllRounds(c, m, w, after, rounds[1..], minAge, t)
  }

  lemma RoundKeepsConvergence(c: Codec, s: State, w: World, seen: map<Uuid, int>, r: Round, minAge: int, t: State,
                              after: map<Uuid, int>)
    requires Canonical(c) && Reachable(c, s) && Resting(s) && Converged(c, s, w) && NoRemovalWaiting(s)
    requires IsRound(c, s, w, seen, r, minAge, t, after)
    ensures Reachable(c, t) && Resting(t) && Converged(c, t, w) && NoRemovalWaiting(t)
  {
    match r
    case Sweep(now) =>
      hide Reachable, Resting, Converged, IsPass, Canonical, NoRemovalWaiting;
      ConvergedStays(c, s, w, seen, now, minAge, t, after);
      PassLeavesNoRemoval(c, s, w, seen, now, minAge, t, after);
    case Mix =>
      hide Reachable, Resting, Converged, Canonical, NoRemovalWaiting, Enabled;
      NoRemovalSpares(s);
      MixerKeepsRestExactly(c, s, w);
      MixerStepIs(c, s);
      hide Next, FreesSource;
  }

  /** Once converged with no removal of a registered uuid waiting, passes and mixer steps in any order keep it so. */
  lemma {:induction false} ConvergedWhileMixing(c: Codec, s: State, w: World, seen: map<Uuid, int>, rounds: seq<Round>,
                                                minAge: int, t: State)
    requires Canonical(c) && Reachable(c, s) && Resting(s) && Converged(c, s, w) && NoRemovalWaiting(s)
    requires AllRounds(c, s, w, seen, rounds, minAge, t)
    ensures Reachable(c, t) && Resting(t) && Converged(c, t, w) && NoRemovalWaiting(t)
    decreases |rounds|
  {
    hide Reachable, Resting, Converged, IsRound, Canonical, NoRemovalWaiting;
    if rounds != [] {
      var m, after :|
        IsRound(c, s, w, seen, rounds[0], minAge, m, after) && AllRounds(c, m, w, after, rounds[1..], minAge, t);
      RoundKeepsConvergence(c, s, w, seen, rounds[0], minAge, m, after);
      ConvergedWhileMixing(c, m, w, after, rounds[1..], minAge, t);
    }
  }
}
