/**
 * Once clients, admissions and triggers stop, the departures under way finish and the queue runs dry, whatever the
 * order.
 */
module Quiesce {
  import opened Common
  import opened Scope
  import opened Protocol
  import opened ProtocolOrder
  import opened ProtocolSafety
  import opened ProtocolRest
  import opened Departure
  import opened DepartureRuns

  /** What goes on by itself: no admission, no trigger, no client event, no message of the system's own. */
  predicate IsWork(e: Step) {
    !(e.Admit? || e.RegisterOrphan? || e.Begin? || e.Mark? || e.SendBegin? || e.SweepPolicy?)
  }

  // ------------------------------------------------------------------ the measure

  function Sum(sess: Sessions, n: nat, f: Session -> nat): nat {
    if n == 0 then 0 else Sum(sess, n - 1, f) + (if n - 1 in sess then f(sess[n - 1]) else 0)
  }

  lemma {:induction false} SumWith(sess: Sessions, n: nat, f: Session -> nat, g: Gen, x: Session)
    requires g in sess
    ensures Sum(sess[g := x], n, f) == Sum(sess, n, f) + (if g < n then f(x) - f(sess[g]) else 0)
  {
    if n > 0 { SumWith(sess, n - 1, f, g, x); }
  }

  function PhasesLeft(x: Session): nat { if x.phase <= FINISHED then FINISHED - x.phase else 0 }

  function Unsent(x: Session): nat { 2 * |x.pending| + 2 * |x.inflight| }

  function Remaining(s: State): nat { Sum(s.sess, s.nextGen, PhasesLeft) }

  function Queued(s: State): nat { (if s.drained <= |s.log| then |s.log| - s.drained else 0) + |s.mixer| }

  function Backlog(s: State): nat { Sum(s.sess, s.nextGen, Unsent) + Queued(s) }

  /** Phases count first, then messages not yet dispatched and changes not yet mixed in. */
  predicate Below(t: State, s: State) {
    Remaining(t) < Remaining(s) || (Remaining(t) == Remaining(s) && Backlog(t) < Backlog(s))
  }

  lemma LaterPhaseIsBelow(s: State, t: State, g: Gen)
    requires g in s.sess && g < s.nextGen == t.nextGen && g in t.sess && t.sess == s.sess[g := t.sess[g]]
    requires s.sess[g].phase < t.sess[g].phase <= FINISHED
    ensures Below(t, s)
  {
    SumWith(s.sess, s.nextGen, PhasesLeft, g, t.sess[g]);
  }

  lemma LessUnsentIsBelow(s: State, t: State, g: Gen)
    requires g in s.sess && g < s.nextGen == t.nextGen && g in t.sess && t.sess == s.sess[g := t.sess[g]]
    requires s.sess[g].phase == t.sess[g].phase && Unsent(t.sess[g]) + Queued(t) < Unsent(s.sess[g]) + Queued(s)
    ensures Below(t, s)
  {
    SumWith(s.sess, s.nextGen, PhasesLeft, g, t.sess[g]);
    SumWith(s.sess, s.nextGen, Unsent, g, t.sess[g]);
  }

  /** A session's own step takes it to a later phase, or one message of its own further. */
  lemma LocalMovesOn(c: Codec, s: State, e: Step)
    requires Enabled(c, s, e) && IsLocal(e) && (IsWork(e) || e.Begin?) && SessionOk(e.g, s.sess[e.g])
             && s.drained <= |s.log|
    ensures e.g in Next(c, s, e).sess
    ensures var t := Next(c, s, e);
            || s.sess[e.g].phase < t.sess[e.g].phase
            || (s.sess[e.g].phase == t.sess[e.g].phase
                && Unsent(t.sess[e.g]) + Queued(t) < Unsent(s.sess[e.g]) + Queued(s))
  {
    hide IsSweep, Track, FreesSource, Without, IsMarker, AllOwned, SlotsOf, KeysOf, ClassifyKey, Lookup, AreTombstones,
         DoomedBy;
    if e.CloseQuit? || e.Barrier? || e.TakeSent? {
      StopActsOnItsOwn(s, e.g, e.CloseQuit?, e.Barrier?, e.TakeSent?);
      hide OnBouncer;
    }
  }

  lemma LocalWorkLowers(c: Codec, s: State, e: Step)
    requires Ownership(s) && Enabled(c, s, e) && IsLocal(e) && (IsWork(e) || e.Begin?)
    ensures Below(Next(c, s, e), s)
  {
    LocalStep(c, s, e);
    SessionFacts(s, e.g);
    LocalMovesOn(c, s, e);
    assert e.g < s.nextGen by { assert Typed(s.sess, s.nextGen, s.registry); }
    var t := Next(c, s, e);
    hide Next, Enabled, Ownership, Below, Unsent, Queued, Replaces;
    if s.sess[e.g].phase < t.sess[e.g].phase { LaterPhaseIsBelow(s, t, e.g); } else { LessUnsentIsBelow(s, t, e.g); }
  }

  lemma OtherWorkLowers(c: Codec, s: State, e: Step)
    requires Ownership(s) && Enabled(c, s, e) && !IsLocal(e) && IsWork(e)
    ensures Below(Next(c, s, e), s)
  {
    var t := Next(c, s, e);
    OtherStep(c, s, e);
    TouchedMovesOn(c, s, e);
    QueueMovesOn(c, s, e);
    assert Typed(s.sess, s.nextGen, s.registry);
    match Touched(s, e)
    case Some((g, x)) =>
      LastPhase(s, e, g);
      hide Next, Enabled, Ownership, Below, Touched, Registered, Held, SessionsOk;
      LaterPhaseIsBelow(s, t, g);
    case None =>
      hide Next, Enabled, Ownership, Touched;
  }

  lemma LastPhase(s: State, e: Step, g: Gen)
    requires Ownership(s) && IsWork(e) && Touched(s, e).Some? && Touched(s, e).value.0 == g
    ensures g in s.sess && Touched(s, e).value.1.phase <= FINISHED
  {
  }

  lemma QueueMovesOn(c: Codec, s: State, e: Step)
    requires Enabled(c, s, e) && !IsLocal(e) && IsWork(e)
    ensures Next(c, s, e).nextGen == s.nextGen
    ensures (e.Drain? || e.MixerStep?) && s.drained <= |s.log| ==> Queued(Next(c, s, e)) < Queued(s)
    ensures Touched(s, e).None? ==> e.Drain? || e.MixerStep?
  {
    if e.MixerStep? {
      MixerMovesOn(c, s);
    } else {
      hide OnBouncer, DoomedBy, Track, FreesSource, IsSweep, Without, AreTombstones, AllOwned, SlotsOf, KeysOf,
           IsMarker;
    }
  }

  lemma MixerMovesOn(c: Codec, s: State)
    requires Enabled(c, s, MixerStep)
    ensures Next(c, s, MixerStep).nextGen == s.nextGen
    ensures s.drained <= |s.log| ==> Queued(Next(c, s, MixerStep)) < Queued(s)
  {
    hide Track, FreesSource;
  }

  /** Every step that goes on by itself, and every trigger, lowers the measure. */
  lemma WorkLowers(c: Codec, s: State, e: Step)
    requires Ownership(s) && Enabled(c, s, e) && (IsWork(e) || e.Begin?)
    ensures Below(Next(c, s, e), s)
  {
    hide Next, Enabled, Ownership, Below;
    if IsLocal(e) { LocalWorkLowers(c, s, e); } else { OtherWorkLowers(c, s, e); }
  }

  /** Left to itself the system stops: in every infinite sequence some step is not work, or not enabled. */
  lemma {:induction false} WorkEnds(c: Codec, states: nat -> State, steps: nat -> Step, i: nat) returns (n: nat)
    requires Ownership(states(i))
    requires forall j: nat :: j >= i && IsWork(steps(j)) && Enabled(c, states(j), steps(j)) ==>
               states(j + 1) == Next(c, states(j), steps(j))
    ensures i <= n && !(IsWork(steps(n)) && Enabled(c, states(n), steps(n)))
    decreases Remaining(states(i)), Backlog(states(i))
  {
    hide Next, Enabled, Ownership;
    if IsWork(steps(i)) && Enabled(c, states(i), steps(i)) {
      WorkLowers(c, states(i), steps(i));
      NextKeepsOwnership(c, states(i), steps(i));
      n := WorkEnds(c, states, steps, i + 1);
    } else {
      n := i;
    }
  }

  // ------------------------------------------------------------------ work goes on until rest

  lemma {:induction false} TombstonesExist(keys: set<string>) returns (ops: seq<ParsedOp>)
    ensures AreTombstones(ops, keys)
    decreases |keys|
  {
    if keys == {} {
      ops := [];
    } else {
      var k :| k in keys;
      var rest := TombstonesExist(keys - {k});
      ops := rest + [ParsedOp(k, true)];
      KeysOfLast(ops);
      assert ops[..|rest|] == rest;
    }
  }

  lemma {:induction false} MessagesExist(g: Gen, pending: seq<Batch>) returns (messages: seq<Msg>)
    ensures AreBatches(g, pending, messages)
    decreases |pending|
  {
    if pending == [] {
      messages := [];
    } else {
      var n := |pending| - 1;
      var before := MessagesExist(g, pending[..n]);
      var ops := TombstonesExist(pending[n].keys);
      messages := before + [Msg(FromDeparture(g), NIL, pending[n].topic, ops)];
      hide AreTombstones;
      forall i | 0 <= i < n ensures messages[i] == before[i] && pending[i] == pending[..n][i] {}
    }
  }

  function Topics(slots: set<Slot>): set<string> { set k | k in slots :: k.topic }

  /** A topic none of the others may follow. */
  lemma {:induction false} LastTopic(topics: set<string>) returns (t: string)
    requires topics != {}
    ensures t in topics && forall x :: x in topics ==> TopicRank(x) <= TopicRank(t)
    decreases |topics|
  {
    var x :| x in topics;
    if topics == {x} {
      t := x;
    } else {
      t := LastTopic(topics - {x});
      if TopicRank(x) > TopicRank(t) { t := x; }
    }
  }

  /** Whatever is doomed can be swept: one batch per topic, in order. */
  lemma {:induction false} SweepExists(doomed: set<Slot>) returns (pending: seq<Batch>)
    ensures IsSweep(doomed, pending) && forall i :: 0 <= i < |pending| ==> pending[i].topic in Topics(doomed)
    decreases |doomed|
  {
    if doomed == {} {
      pending := [];
    } else {
      var k :| k in doomed;
      assert k.topic in Topics(doomed);
      var t := LastTopic(Topics(doomed));
      var last := set x | x in doomed && x.topic == t;
      var before := SweepExists(doomed - last);
      pending := before + [Batch(t, set x | x in last :: x.key)];
      AddLastTopic(doomed, t, last, before);
    }
  }

  lemma AddLastTopic(doomed: set<Slot>, t: string, last: set<Slot>, before: seq<Batch>)
    requires t in Topics(doomed) && (forall x :: x in Topics(doomed) ==> TopicRank(x) <= TopicRank(t))
    requires last == set x | x in doomed && x.topic == t
    requires IsSweep(doomed - last, before) && forall i :: 0 <= i < |before| ==>
               before[i].topic in Topics(doomed - last)
    ensures var pending := before + [Batch(t, set x | x in last :: x.key)];
            IsSweep(doomed, pending) && forall i :: 0 <= i < |pending| ==> pending[i].topic in Topics(doomed)
  {
    hide IsSweep, TopicRank, SlotsOf;
    var b := Batch(t, set x | x in last :: x.key);
    BatchOfTopic(last, t);
    assert t !in Topics(doomed - last) && Topics(doomed - last) <= Topics(doomed);
    AppendBatch(doomed - last, before, b);
    assert doomed - last + last == doomed;
  }

  lemma BatchOfTopic(slots: set<Slot>, t: string)
    requires forall x :: x in slots ==> x.topic == t
    ensures SlotsOf(Batch(t, set x | x in slots :: x.key)) == slots
  {
  }

  /** The next step of a departure, with no message left in flight. */
  lemma DepartureGoesOn(c: Codec, s: State, g: Gen) returns (e: Step)
    requires g in s.sess && 1 <= s.sess[g].phase < FINISHED && SessionOk(g, s.sess[g])
             && s.sess[g].inflight == multiset{}
    ensures IsWork(e) && Enabled(c, s, e)
  {
    hide IsSweep, AreTombstones, DoomedBy;
    var x := s.sess[g];
    if x.phase == SEVERED { e := Capture(g); }
    else if x.phase == CAPTURED { e := CloseQuit(g); }
    else if x.phase == QUITTING { e := Barrier(g); }
    else if x.phase == BARRED { e := SnapshotTracked(g); }
    else if x.phase == TRACKED { var pending := SweepExists(DoomedBy(s, g)); e := TakeSent(g, pending); }
    else if x.phase == ANNOUNCING {
      if x.pending == [] { e := EnqueueDelete(g); }
      else { var ops := TombstonesExist(x.pending[0].keys); e := Announce(g, ops); }
    }
    else if x.phase == REMOVED { e := Release(g); }
    else if x.phase == RELEASED { e := Unregister(g); }
    else { e := MarkDeparted(g); }
  }

  /** Where no work is possible, the system is at rest. */
  lemma WorkRemains(c: Codec, s: State) returns (e: Step)
    requires Ownership(s) && !Resting(s)
    ensures IsWork(e) && Enabled(c, s, e)
  {
    if s.drained < |s.log| {
      e := Drain;
    } else if g, f :| g in s.sess && f in s.sess[g].inflight {
      e := SendEnqueue(g, f);
    } else {
      assert forall g :: g in s.sess ==> s.sess[g].inflight == multiset{};
      var g :| g in s.sess && s.sess[g].phase !in {LIVE, FINISHED};
      SessionFacts(s, g);
      e := DepartureGoesOn(c, s, g);
    }
  }

  /** From every reachable state, steps that go on by themselves lead to rest. */
  lemma {:induction false} ReachesRest(c: Codec, s: State) returns (steps: seq<Step>, t: State)
    requires Reachable(c, s)
    ensures Leads(c, s, steps, t) && (forall e :: e in steps ==> IsWork(e)) && Reachable(c, t) && Resting(t)
    decreases Remaining(s), Backlog(s)
  {
    hide Next, Enabled, Ownership, Reachable, Resting;
    if Resting(s) {
      steps, t := [], s;
    } else {
      ReachableInv(c, s);
      hide LogOk, AllKeysOk, ConnOk, AllSweepsOk;
      var e := WorkRemains(c, s);
      WorkLowers(c, s, e);
      StepReaches(c, s, e);
      steps, t := ReachesRest(c, Next(c, s, e));
      assert ([e] + steps)[1..] == steps;
      steps := [e] + steps;
    }
  }
}
