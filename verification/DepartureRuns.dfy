/** A departure of the transition system, run without interruption. */
module DepartureRuns {
  import opened Common
  import opened Scope
  import opened Protocol
  import opened ProtocolSafety
  import opened Departure

  ghost predicate Leads(c: Codec, s: State, steps: seq<Step>, t: State)
    decreases |steps|
  {
    if steps == [] then t == s else Enabled(c, s, steps[0]) && Leads(c, Next(c, s, steps[0]), steps[1..], t)
  }

  ghost predicate LeadsTo(c: Codec, s: State, t: State) { exists steps :: Leads(c, s, steps, t) }

  lemma {:induction false} LeadsAppend(c: Codec, s: State, steps: seq<Step>, t: State, e: Step)
    requires Leads(c, s, steps, t) && Enabled(c, t, e)
    ensures Leads(c, s, steps + [e], Next(c, t, e))
    decreases |steps|
  {
    hide Enabled, Next;
    if steps != [] {
      LeadsAppend(c, Next(c, s, steps[0]), steps[1..], t, e);
      assert (steps + [e])[1..] == steps[1..] + [e];
    } else {
      assert [e][1..] == [] && Leads(c, Next(c, t, e), [], Next(c, t, e));
    }
  }

  lemma {:induction false} LeadsOn(c: Codec, s: State, first: seq<Step>, t: State, second: seq<Step>, u: State)
    requires Leads(c, s, first, t) && Leads(c, t, second, u)
    ensures Leads(c, s, first + second, u)
    decreases |first|
  {
    hide Enabled, Next;
    if first == [] {
      assert first + second == second;
    } else {
      LeadsOn(c, Next(c, s, first[0]), first[1..], t, second, u);
      assert (first + second)[1..] == first[1..] + second;
    }
  }

  lemma LeadsToOn(c: Codec, s: State, t: State, u: State)
    requires LeadsTo(c, s, t) && LeadsTo(c, t, u)
    ensures LeadsTo(c, s, u)
  {
    hide Leads;
    var first :| Leads(c, s, first, t);
    var second :| Leads(c, t, second, u);
    LeadsOn(c, s, first, t, second, u);
  }

  lemma {:induction false} LeadsReaches(c: Codec, s: State, steps: seq<Step>, t: State)
    requires Reachable(c, s) && Leads(c, s, steps, t)
    ensures Reachable(c, t)
    decreases |steps|
  {
    hide Enabled, Next, Reachable;
    if steps != [] {
      StepReaches(c, s, steps[0]);
      LeadsReaches(c, Next(c, s, steps[0]), steps[1..], t);
    }
  }

  lemma LeadsToReaches(c: Codec, s: State, t: State)
    requires Reachable(c, s) && LeadsTo(c, s, t)
    ensures Reachable(c, t)
  {
    hide Leads, Reachable;
    var steps :| Leads(c, s, steps, t);
    LeadsReaches(c, s, steps, t);
  }

  lemma ThenStep(c: Codec, s: State, t: State, e: Step)
    requires LeadsTo(c, s, t) && Enabled(c, t, e)
    ensures LeadsTo(c, s, Next(c, t, e))
  {
    hide Enabled, Next, Leads;
    var steps :| Leads(c, s, steps, t);
    LeadsAppend(c, s, steps, t, e);
  }

  lemma Start(c: Codec, s: State)
    ensures LeadsTo(c, s, s)
  {
    assert Leads(c, s, [], s);
  }

  function Mine(x: Session, g: Gen): Option<Gen> { if x.orphan then None else Some(g) }

  /** Session g as its departure transforms it, up to the copy of the tracked keys. */
  function Hop(s: State, g: Gen, x: Session, e: Step): Session {
    match e
    case Begin(_) => x.(phase := SEVERED)
    case Capture(_) => x.(phase := CAPTURED, handler := Mine(x, g), bouncer := Mine(x, g))
    case CloseQuit(_) => x.(phase := QUITTING, quit := x.quit || !x.orphan)
    case Barrier(_) => x.(phase := BARRED, stopped := x.stopped || !x.orphan)
    case SnapshotTracked(_) => x.(phase := TRACKED, doomed := Tracked(s, x.uuid))
    case _ => x
  }

  lemma HopIs(c: Codec, s: State, g: Gen, x: Session, e: Step)
    requires e in [Begin(g), Capture(g), SnapshotTracked(g)]
    requires Lookup(s.handlers, x.uuid) == Lookup(s.bouncers, x.uuid) == Mine(x, g)
    requires x.phase == if e.Begin? then LIVE else if e.Capture? then SEVERED else BARRED
    ensures Enabled(c, With(s, g, x), e) && Next(c, With(s, g, x), e) == With(s, g, Hop(s, g, x, e))
  {
    hide Enabled, Next, Hop, With, Lookup, Mine;
    match e
    case Begin(_) => BeginIs(c, s, g, x);
    case Capture(_) => CaptureIs(c, s, g, x);
    case SnapshotTracked(_) => SnapshotIs(c, s, g, x);
  }

  lemma BeginIs(c: Codec, s: State, g: Gen, x: Session)
    requires x.phase == LIVE
    ensures Enabled(c, With(s, g, x), Begin(g))
    ensures Next(c, With(s, g, x), Begin(g)) == With(s, g, Hop(s, g, x, Begin(g)))
  {
    hide OnBouncer, DoomedBy, Track, FreesSource, IsSweep, Without, AreTombstones, AllOwned, SlotsOf, KeysOf, IsMarker;
  }

  lemma CaptureIs(c: Codec, s: State, g: Gen, x: Session)
    requires Lookup(s.handlers, x.uuid) == Lookup(s.bouncers, x.uuid) == Mine(x, g) && x.phase == SEVERED
    ensures Enabled(c, With(s, g, x), Capture(g))
    ensures Next(c, With(s, g, x), Capture(g)) == With(s, g, Hop(s, g, x, Capture(g)))
  {
    hide OnBouncer, DoomedBy, Track, FreesSource, IsSweep, Without, AreTombstones, AllOwned, SlotsOf, KeysOf, IsMarker;
  }

  lemma SnapshotIs(c: Codec, s: State, g: Gen, x: Session)
    requires x.phase == BARRED
    ensures Enabled(c, With(s, g, x), SnapshotTracked(g))
    ensures Next(c, With(s, g, x), SnapshotTracked(g)) == With(s, g, Hop(s, g, x, SnapshotTracked(g)))
  {
    hide OnBouncer, DoomedBy, Track, FreesSource, IsSweep, Without, AreTombstones, AllOwned, SlotsOf, KeysOf, IsMarker;
  }

  lemma StopIs(c: Codec, s: State, g: Gen, x: Session, e: Step)
    requires e in [CloseQuit(g), Barrier(g)] && x.bouncer == Mine(x, g) && x.inflight == multiset{}
    requires x.phase == if e.CloseQuit? then CAPTURED else QUITTING
    ensures Enabled(c, With(s, g, x), e) && Next(c, With(s, g, x), e) == With(s, g, Hop(s, g, x, e))
  {
    assert With(With(s, g, x), g, x) == With(s, g, x);
  }

  /** The entry after its own Stop, with the tracked keys copied. */
  function Stopped(s: State, g: Gen): Session
    requires g in s.sess
  {
    var x := s.sess[g];
    x.(phase := TRACKED, handler := Mine(x, g), bouncer := Mine(x, g), quit := x.quit || !x.orphan,
       stopped := x.stopped || !x.orphan, doomed := Tracked(s, x.uuid))
  }

  lemma ThenHop(c: Codec, s: State, g: Gen, x: Session, e: Step)
    requires LeadsTo(c, s, With(s, g, x))
    requires Enabled(c, With(s, g, x), e) && Next(c, With(s, g, x), e) == With(s, g, Hop(s, g, x, e))
    ensures LeadsTo(c, s, With(s, g, Hop(s, g, x, e)))
  {
    hide LeadsTo, Enabled, Next;
    ThenStep(c, s, With(s, g, x), e);
  }

  lemma UpToTracked(c: Codec, s: State, g: Gen)
    requires g in s.sess && s.sess[g].phase == LIVE && s.sess[g].inflight == multiset{}
    requires Lookup(s.handlers, s.sess[g].uuid) == Lookup(s.bouncers, s.sess[g].uuid) == Mine(s.sess[g], g)
    ensures LeadsTo(c, s, With(s, g, Stopped(s, g)))
  {
    hide LeadsTo, Enabled, Next, Lookup;
    var x := s.sess[g];
    Start(c, s);
    assert With(s, g, x) == s;
    hide With, Tracked;
    HopIs(c, s, g, x, Begin(g));
    ThenHop(c, s, g, x, Begin(g));
    var x1 := Hop(s, g, x, Begin(g));
    HopIs(c, s, g, x1, Capture(g));
    ThenHop(c, s, g, x1, Capture(g));
    var x2 := Hop(s, g, x1, Capture(g));
    StopIs(c, s, g, x2, CloseQuit(g));
    ThenHop(c, s, g, x2, CloseQuit(g));
    var x3 := Hop(s, g, x2, CloseQuit(g));
    StopIs(c, s, g, x3, Barrier(g));
    ThenHop(c, s, g, x3, Barrier(g));
    var x4 := Hop(s, g, x3, Barrier(g));
    HopIs(c, s, g, x4, SnapshotTracked(g));
    ThenHop(c, s, g, x4, SnapshotTracked(g));
    assert Hop(s, g, x4, SnapshotTracked(g)) == Stopped(s, g);
  }

  /** The announcements, one pending batch after the other. */
  lemma {:induction false} AllAnnounced(c: Codec, s: State, t: State, g: Gen, pending: seq<Batch>, messages: seq<Msg>)
    requires LeadsTo(c, s, t) && InPhase(t, g, ANNOUNCING) && t.sess[g].pending == pending
             && AreBatches(g, pending, messages)
    ensures LeadsTo(c, s, With(t, g, t.sess[g].(pending := [])).(log := t.log + messages))
    decreases |pending|
  {
    hide LeadsTo, AreTombstones;
    if pending == [] {
      assert t.log + messages == t.log;
      assert With(t, g, t.sess[g].(pending := [])) == t;
    } else {
      var e := Announce(g, messages[0].ops);
      ThenStep(c, s, t, e);
      var t1 := With(t, g, t.sess[g].(pending := pending[1..])).(log := t.log + [messages[0]]);
      assert Next(c, t, e) == t1;
      hide Enabled, Next;
      AllAnnounced(c, s, t1, g, pending[1..], messages[1..]);
      assert t.log + [messages[0]] + messages[1..] == t.log + messages;
      assert With(t1, g, t1.sess[g].(pending := [])).(log := t1.log + messages[1..])
          == With(t, g, t.sess[g].(pending := [])).(log := t.log + messages);
    }
  }

  /** Take the sent keys and announce. */
  lemma UpToAnnounced(c: Codec, s: State, t: State, g: Gen, pending: seq<Batch>, messages: seq<Msg>)
    requires LeadsTo(c, s, t) && InPhase(t, g, TRACKED) && t.sess[g].bouncer == Mine(t.sess[g], g)
    requires t.sess[g].orphan ==> t.sess[g].sent == {}
    requires IsSweep(t.sess[g].doomed + t.sess[g].sent, pending) && AreBatches(g, pending, messages)
    ensures var x := t.sess[g];
            LeadsTo(c, s, With(t, g, x.(phase := ANNOUNCING, doomed := x.doomed + x.sent, sent := {}, pending := []))
                          .(log := t.log + messages))
  {
    hide LeadsTo, IsSweep, AreBatches, Enabled, Next, DoomedBy;
    var x := t.sess[g];
    TakeIs(c, t, g, pending);
    ThenStep(c, s, t, TakeSent(g, pending));
    var t1 := With(t, g, x.(phase := ANNOUNCING, doomed := x.doomed + x.sent, sent := {}, pending := pending));
    AllAnnounced(c, s, t1, g, pending, messages);
    assert With(t1, g, t1.sess[g].(pending := [])).(log := t1.log + messages)
        == With(t, g, x.(phase := ANNOUNCING, doomed := x.doomed + x.sent, sent := {}, pending := []))
           .(log := t.log + messages);
  }

  lemma TakeIs(c: Codec, t: State, g: Gen, pending: seq<Batch>)
    requires InPhase(t, g, TRACKED) && t.sess[g].bouncer == Mine(t.sess[g], g)
    requires t.sess[g].orphan ==> t.sess[g].sent == {}
    requires IsSweep(t.sess[g].doomed + t.sess[g].sent, pending)
    ensures Enabled(c, t, TakeSent(g, pending))
    ensures var x := t.sess[g];
            Next(c, t, TakeSent(g, pending))
            == With(t, g, x.(phase := ANNOUNCING, doomed := x.doomed + x.sent, sent := {}, pending := pending))
  {
    hide IsSweep, Track, FreesSource, Without, AreTombstones, AllOwned, SlotsOf, KeysOf, IsMarker;
    assert DoomedBy(t, g) == t.sess[g].doomed + t.sess[g].sent;
  }

  lemma RemoveIs(c: Codec, t: State, g: Gen)
    requires InPhase(t, g, ANNOUNCING) && t.sess[g].pending == []
    ensures Enabled(c, t, EnqueueDelete(g))
    ensures Next(c, t, EnqueueDelete(g))
            == With(t, g, t.sess[g].(phase := REMOVED)).(mixer := t.mixer + [DeleteNode(t.sess[g].uuid)])
  {
    hide OnBouncer, DoomedBy, Track, FreesSource, IsSweep, Without;
  }

  lemma ReleaseIs(c: Codec, t: State, g: Gen)
    requires InPhase(t, g, REMOVED)
    requires var x := t.sess[g]; x.handler == x.bouncer == Lookup(t.handlers, x.uuid) == Lookup(t.bouncers, x.uuid)
    ensures var x := t.sess[g];
            Enabled(c, t, Release(g))
            && Next(c, t, Release(g)) == With(t, g, x.(phase := RELEASED)).(
                 handlers := t.handlers - {x.uuid}, bouncers := t.bouncers - {x.uuid}, conn := t.conn - {x.uuid})
  {
    hide OnBouncer, DoomedBy, Track, FreesSource, IsSweep;
    var x := t.sess[g];
    assert Without(t.handlers, x.uuid, x.handler) == t.handlers - {x.uuid};
    assert Without(t.bouncers, x.uuid, x.bouncer) == t.bouncers - {x.uuid};
  }

  lemma UnregisterIs(c: Codec, t: State, g: Gen)
    requires InPhase(t, g, RELEASED) && Lookup(t.registry, t.sess[g].uuid) == Some(g)
    ensures Enabled(c, t, Unregister(g))
    ensures Next(c, t, Unregister(g))
            == With(t, g, t.sess[g].(phase := UNREGISTERED)).(registry := t.registry - {t.sess[g].uuid})
  {
    hide OnBouncer, DoomedBy, Track, FreesSource, IsSweep;
  }

  lemma MarkIs(c: Codec, t: State, g: Gen)
    requires InPhase(t, g, UNREGISTERED)
    ensures Enabled(c, t, MarkDeparted(g)) && Next(c, t, MarkDeparted(g)) == With(t, g, t.sess[g].(phase := FINISHED))
  {
    hide OnBouncer, DoomedBy, Track, FreesSource, IsSweep, Without;
  }

  /** Remove, release, unregister, mark. */
  lemma UpToFinished(c: Codec, s: State, t: State, g: Gen)
    requires LeadsTo(c, s, t) && InPhase(t, g, ANNOUNCING) && t.sess[g].pending == []
    requires var x := t.sess[g]; x.handler == x.bouncer == Lookup(t.handlers, x.uuid) == Lookup(t.bouncers, x.uuid)
    requires Lookup(t.registry, t.sess[g].uuid) == Some(g)
    ensures LeadsTo(c, s, Released(t, g))
  {
    hide LeadsTo, Enabled, Next;
    RemoveIs(c, t, g);
    ThenStep(c, s, t, EnqueueDelete(g));
    var t1 := Next(c, t, EnqueueDelete(g));
    ReleaseIs(c, t1, g);
    ThenStep(c, s, t1, Release(g));
    var t2 := Next(c, t1, Release(g));
    UnregisterIs(c, t2, g);
    ThenStep(c, s, t2, Unregister(g));
    var t3 := Next(c, t2, Unregister(g));
    MarkIs(c, t3, g);
    ThenStep(c, s, t3, MarkDeparted(g));
    assert Next(c, t3, MarkDeparted(g)) == Released(t, g);
  }

  /** What a completed departure of g leaves of t. */
  function Released(t: State, g: Gen): State
    requires g in t.sess
  {
    var x := t.sess[g];
    With(t, g, x.(phase := FINISHED)).(
      mixer := t.mixer + [DeleteNode(x.uuid)],
      handlers := t.handlers - {x.uuid}, bouncers := t.bouncers - {x.uuid},
      conn := t.conn - {x.uuid}, registry := t.registry - {x.uuid})
  }

  /** From s to t, g has departed: what DepartNode's contract says of the backend's fields. */
  ghost predicate Departed(s: State, t: State, g: Gen, messages: seq<Msg>)
    requires g in s.sess
  {
    && InPhase(t, g, FINISHED) && t.sess == s.sess[g := t.sess[g]] && t.sess[g].uuid == s.sess[g].uuid
    && t.nextGen == s.nextGen && t.log == s.log + messages && t.drained == s.drained && t.nodes == s.nodes
    && var u := s.sess[g].uuid;
    && t.mixer == s.mixer + [DeleteNode(u)]
    && t.handlers == s.handlers - {u} && t.bouncers == s.bouncers - {u}
    && t.conn == s.conn - {u} && t.registry == s.registry - {u}
  }

  /**
   * Left alone, the departure of a live session takes the system exactly where DepartNode takes the backend: the
   * sweep at the end of the queue, one removal for the mixer, and nothing of the uuid left in any map.
   */
  lemma UninterruptedDeparture(c: Codec, s: State, g: Gen, pending: seq<Batch>, messages: seq<Msg>)
    requires Ownership(s) && InPhase(s, g, LIVE) && s.sess[g].inflight == multiset{}
    requires IsSweep(Tracked(s, s.sess[g].uuid) + s.sess[g].sent, pending) && AreBatches(g, pending, messages)
    ensures exists t :: LeadsTo(c, s, t) && Departed(s, t, g, messages)
  {
    hide LeadsTo, IsSweep, AreBatches, Tracked, Released, Departed, Typed, Registered, Held, SessionsOk;
    SessionFacts(s, g);
    OwnMaps(s, g);
    hide Ownership;
    UpToTracked(c, s, g);
    var t := With(s, g, Stopped(s, g));
    UpToAnnounced(c, s, t, g, pending, messages);
    var x := t.sess[g];
    var t1 := With(t, g, x.(phase := ANNOUNCING, doomed := x.doomed + x.sent, sent := {}, pending := []))
              .(log := t.log + messages);
    UpToFinished(c, s, t1, g);
    ReleasedIsDeparted(s, t1, g, messages);
  }

  lemma ReleasedIsDeparted(s: State, t: State, g: Gen, messages: seq<Msg>)
    requires g in s.sess && g in t.sess && t.sess == s.sess[g := t.sess[g]] && t.sess[g].uuid == s.sess[g].uuid
    requires t.(sess := s.sess, log := s.log) == s && t.log == s.log + messages
    ensures Departed(s, Released(t, g), g, messages)
  {
  }

  lemma OwnMaps(s: State, g: Gen)
    requires Ownership(s) && InPhase(s, g, LIVE)
    ensures Lookup(s.registry, s.sess[g].uuid) == Some(g)
    ensures Lookup(s.handlers, s.sess[g].uuid) == Lookup(s.bouncers, s.sess[g].uuid) == Mine(s.sess[g], g)
  {
    if s.sess[g].orphan {
      HeldMeansRegistered(s, s.handlers, s.sess[g].uuid);
      HeldMeansRegistered(s, s.bouncers, s.sess[g].uuid);
      assert Registered(s.sess, s.registry);
    } else {
      LiveSessionOwnsItsMaps(s, g);
    }
  }
}
