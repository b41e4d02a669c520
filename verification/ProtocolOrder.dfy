/**
 * The one inbound queue, over every run: who may stand where in it, and which messages a departure owes it.
 */
module ProtocolOrder {
  import opened Common
  import opened Scope
  import opened Protocol

  // ------------------------------------------------------------------ the invariant

  /** What has been announced and is not yet swept: the client's record until it is taken, then the sweep's. */
  function Announced(x: Session): set<Slot> { if x.phase < ANNOUNCING then x.sent else x.doomed }

  function SlotsIn(m: Msg): set<Slot> { SlotsOf(Batch(m.topic, KeysOf(m.ops))) }

  predicate NoMarkers(c: Codec, topic: string, ops: seq<ParsedOp>) {
    forall i :: 0 <= i < |ops| ==> !IsMarker(c, Slot(topic, ops[i].key))
  }

  /** Each message is what its origin may send. */
  predicate MsgOk(c: Codec, sess: Sessions, m: Msg) {
    match m.origin
    case FromSession(g, announced) =>
      && g in sess && !sess[g].orphan && m.source == sess[g].uuid
      && (if announced then SlotsIn(m) <= Announced(sess[g]) else NoMarkers(c, m.topic, m.ops))
    case FromDeparture(g) =>
      && g in sess && sess[g].phase >= ANNOUNCING && m.source == NIL
      && AreTombstones(m.ops, KeysOf(m.ops)) && AllOwned(c, sess[g].uuid, SlotsIn(m))
    case FromSystem =>
      m.source == NIL && forall i :: 0 <= i < |m.ops| ==> ClassifyKey(c, m.topic, m.ops[i].key).0 == Policy
  }

  function GenOf(m: Msg): Option<Gen> {
    match m.origin
    case FromSession(g, _) => Some(g)
    case FromDeparture(g) => Some(g)
    case FromSystem => None
  }

  /** m may stand before n: of one uuid, generations never step back, and a session never speaks after its sweep. */
  predicate MayPrecede(sess: Sessions, m: Msg, n: Msg) {
    GenOf(m).Some? && GenOf(n).Some? && GenOf(m).value in sess && GenOf(n).value in sess
    && sess[GenOf(m).value].uuid == sess[GenOf(n).value].uuid ==>
      || GenOf(m).value < GenOf(n).value
      || (GenOf(m).value == GenOf(n).value
          && (m.origin.FromDeparture? ==> n.origin.FromDeparture? && GoesBefore(m.topic, n.topic)))
  }

  predicate LogOk(c: Codec, sess: Sessions, log: seq<Msg>) {
    && (forall i :: 0 <= i < |log| ==> MsgOk(c, sess, log[i]))
    && (forall i, j :: 0 <= i < j < |log| ==> MayPrecede(sess, log[i], log[j]))
  }

  /** Everything a session recorded, doomed or has in flight is connection-scoped and its own. */
  ghost predicate KeysOk(c: Codec, x: Session) {
    && AllOwned(c, x.uuid, x.sent) && AllOwned(c, x.uuid, x.doomed)
    && (x.phase < ANNOUNCING ==> forall b :: b in x.marked ==> SlotsOf(b) <= x.sent)
    && (forall f :: f in x.inflight ==>
          if f.announced then Batch(f.topic, KeysOf(f.ops)) in x.marked else NoMarkers(c, f.topic, f.ops))
  }

  ghost predicate AllKeysOk(c: Codec, sess: Sessions) { forall g :: g in sess ==> KeysOk(c, sess[g]) }

  ghost predicate ConnOk(c: Codec, conn: map<Uuid, set<Slot>>) {
    NIL !in conn && forall u :: u in conn ==> AllOwned(c, u, conn[u])
  }

  predicate Sweeps(m: Msg, g: Gen, k: Slot) {
    m.origin == FromDeparture(g) && m.topic == k.topic && k.key in KeysOf(m.ops)
  }

  ghost predicate Swept(log: seq<Msg>, g: Gen, k: Slot) { exists i :: 0 <= i < |log| && Sweeps(log[i], g, k) }

  ghost predicate Owed(pending: seq<Batch>, k: Slot) { exists i :: 0 <= i < |pending| && k in SlotsOf(pending[i]) }

  /** Once the sweep began, each doomed key is still owed or already in the queue; topics go out in order. */
  ghost predicate SweepOk(log: seq<Msg>, g: Gen, x: Session) {
    x.phase >= ANNOUNCING ==>
      && (forall k :: k in x.doomed ==> Owed(x.pending, k) || Swept(log, g, k))
      && (forall i :: 0 <= i < |x.pending| ==> SlotsOf(x.pending[i]) <= x.doomed)
      && (forall i, j :: 0 <= i < j < |x.pending| ==> GoesBefore(x.pending[i].topic, x.pending[j].topic))
      && (forall i, j :: 0 <= i < |log| && log[i].origin == FromDeparture(g) && 0 <= j < |x.pending| ==>
            GoesBefore(log[i].topic, x.pending[j].topic))
  }

  ghost predicate AllSweepsOk(log: seq<Msg>, sess: Sessions) { forall g :: g in sess ==> SweepOk(log, g, sess[g]) }

  ghost predicate Inv(c: Codec, s: State) {
    && Ownership(s) && LogOk(c, s.sess, s.log) && AllKeysOk(c, s.sess) && ConnOk(c, s.conn)
       && AllSweepsOk(s.log, s.sess)
  }

  lemma InitInv(c: Codec)
    ensures Inv(c, Init())
  {
    InitOwnership();
  }

  // ------------------------------------------------------------------ how a step moves sessions and the queue

  predicate Evolves(x: Session, y: Session) {
    y.uuid == x.uuid && y.orphan == x.orphan && x.phase <= y.phase && Announced(x) <= Announced(y)
  }

  ghost predicate AllEvolve(before: Sessions, after: Sessions) {
    forall g :: g in before ==> g in after && Evolves(before[g], after[g])
  }

  function Emitted(s: State, e: Step): seq<Msg> {
    match e
    case Announce(g, ops) =>
      if g in s.sess && s.sess[g].pending != [] then [Msg(FromDeparture(g), NIL, s.sess[g].pending[0].topic, ops)]
      else []
    case SendEnqueue(g, f) =>
      if g in s.sess then [Msg(FromSession(g, f.announced), s.sess[g].uuid, f.topic, f.ops)] else []
    case SweepPolicy(topic, ops) => [Msg(FromSystem, NIL, topic, ops)]
    case _ => []
  }

  lemma StepEmits(c: Codec, s: State, e: Step)
    requires Enabled(c, s, e)
    ensures Next(c, s, e).log == s.log + Emitted(s, e)
  {
    hide Track, IsSweep, AllOwned, SlotsOf, KeysOf, IsMarker, DoomedBy, AreTombstones, ClassifyKey, Without;
    if !IsLocal(e) {
      OtherStep(c, s, e);
      hide Next;
    }
  }

  lemma LocalEvolves(c: Codec, s: State, e: Step)
    requires Ownership(s) && Enabled(c, s, e) && IsLocal(e) && e.g in s.sess && e.g in Next(c, s, e).sess
    ensures Evolves(s.sess[e.g], Next(c, s, e).sess[e.g])
  {
    SessionFacts(s, e.g);
    hide Ownership;
    if e.CloseQuit? || e.Barrier? || e.TakeSent? { StopEvolves(c, s, e); } else { OthersEvolve(c, s, e); }
  }

  lemma StopEvolves(c: Codec, s: State, e: Step)
    requires (e.CloseQuit? || e.Barrier? || e.TakeSent?) && Enabled(c, s, e) && SessionOk(e.g, s.sess[e.g])
    ensures Evolves(s.sess[e.g], Next(c, s, e).sess[e.g])
  {
    StopActsOnItsOwn(s, e.g, e.CloseQuit?, e.Barrier?, e.TakeSent?);
    hide OnBouncer, DoomedBy, IsSweep;
  }

  lemma OthersEvolve(c: Codec, s: State, e: Step)
    requires IsLocal(e) && !e.CloseQuit? && !e.Barrier? && !e.TakeSent? && Enabled(c, s, e)
    ensures Evolves(s.sess[e.g], Next(c, s, e).sess[e.g])
  {
    hide OnBouncer, DoomedBy, IsSweep, Track, FreesSource, Without, IsMarker, AllOwned, SlotsOf, KeysOf, ClassifyKey,
         Lookup;
  }

  lemma ReplacedEvolves(sess: Sessions, g: Gen, x: Session)
    requires g in sess ==> Evolves(sess[g], x)
    ensures AllEvolve(sess, sess[g := x])
  {
  }

  lemma StepEvolves(c: Codec, s: State, e: Step)
    requires Ownership(s) && Enabled(c, s, e)
    ensures AllEvolve(s.sess, Next(c, s, e).sess)
  {
    assert s.nextGen !in s.sess by { assert Typed(s.sess, s.nextGen, s.registry); }
    if IsLocal(e) {
      LocalStep(c, s, e);
      LocalEvolves(c, s, e);
      ReplacedEvolves(s.sess, e.g, Next(c, s, e).sess[e.g]);
      hide *;
    } else {
      OtherEvolves(c, s, e);
    }
  }

  lemma OtherEvolves(c: Codec, s: State, e: Step)
    requires Enabled(c, s, e) && !IsLocal(e) && s.nextGen !in s.sess
    ensures AllEvolve(s.sess, Next(c, s, e).sess)
  {
    OtherStep(c, s, e);
    TouchedMovesOn(c, s, e);
    hide Next, Enabled, AllEvolve, Touched, IsLocal;
    match Touched(s, e)
    case Some((g, x)) => ReplacedEvolves(s.sess, g, x);
    case None => NothingEvolves(s.sess);
  }

  lemma NothingEvolves(sess: Sessions)
    ensures AllEvolve(sess, sess)
  {
  }

  // ------------------------------------------------------------------ the queue's order is kept

  lemma EvolvingKeepsLog(c: Codec, before: Sessions, after: Sessions, log: seq<Msg>)
    requires LogOk(c, before, log) && AllEvolve(before, after)
    ensures LogOk(c, after, log)
  {
    hide AreTombstones, AllOwned, SlotsIn, NoMarkers, ClassifyKey, Announced;
    forall i | 0 <= i < |log|
      ensures MsgOk(c, after, log[i])
    {
      assert MsgOk(c, before, log[i]);
    }
    forall i, j | 0 <= i < j < |log|
      ensures MayPrecede(after, log[i], log[j])
    {
      assert MsgOk(c, before, log[i]) && MsgOk(c, before, log[j]) && MayPrecede(before, log[i], log[j]);
    }
  }

  lemma AppendKeepsLog(c: Codec, sess: Sessions, log: seq<Msg>, m: Msg)
    requires LogOk(c, sess, log) && MsgOk(c, sess, m) && forall i :: 0 <= i < |log| ==> MayPrecede(sess, log[i], m)
    ensures LogOk(c, sess, log + [m])
  {
    hide MsgOk, MayPrecede;
  }

  /** What Enqueue and Announce put into the queue is what their origin may send. */
  lemma EmittedIsOk(c: Codec, s: State, e: Step)
    requires Inv(c, s) && Enabled(c, s, e)
    ensures forall i :: 0 <= i < |Emitted(s, e)| ==> MsgOk(c, s.sess, Emitted(s, e)[i])
  {
    hide Typed, Registered, Held, LogOk, ConnOk, IsSweep, ClassifyKey, IsMarker;
    if e.SendEnqueue? {
      SessionFacts(s, e.g);
      assert KeysOk(c, s.sess[e.g]);
      hide SessionsOk, AllSweepsOk, AllKeysOk, SlotsOf, KeysOf, NoMarkers;
    } else if e.Announce? {
      assert SweepOk(s.log, e.g, s.sess[e.g]) && KeysOk(c, s.sess[e.g]);
      hide SessionsOk, AllSweepsOk, AllKeysOk, SlotsOf, KeysOf;
    }
  }

  lemma NewestOfItsUuid(sess: Sessions, registry: map<Uuid, Gen>, g: Gen, h: Gen)
    requires Registered(sess, registry) && g in sess && h in sess && sess[h].uuid == sess[g].uuid
             && sess[g].phase < UNREGISTERED
    ensures h <= g
  {
  }

  /** The sender of a new message is the newest of its uuid, and a session with a message in flight has not swept. */
  lemma EmittedComesLast(c: Codec, s: State, e: Step, i: nat, m: Msg)
    requires Inv(c, s) && Enabled(c, s, e) && Emitted(s, e) == [m] && i < |s.log|
    ensures MayPrecede(s.sess, s.log[i], m)
  {
    LoggedIsOk(c, s.sess, s.log, i);
    if e.SendEnqueue? || e.Announce? {
      SessionFacts(s, e.g);
      SweepOf(s, e.g);
      var n := s.log[i];
      if && GenOf(n).Some? && GenOf(n).value in s.sess && s.sess[GenOf(n).value].uuid == s.sess[e.g].uuid
         && s.sess[e.g].phase < UNREGISTERED {
        NewestOfItsUuid(s.sess, s.registry, e.g, GenOf(n).value);
      }
      hide Inv, Ownership;
      if e.SendEnqueue? { EnqueuedComesLast(c, s, e.g, e.f, i); } else { AnnouncedComesLast(c, s, e.g, e.ops, i); }
    }
  }

  lemma LoggedIsOk(c: Codec, sess: Sessions, log: seq<Msg>, i: nat)
    requires LogOk(c, sess, log) && i < |log|
    ensures MsgOk(c, sess, log[i])
  {
  }

  predicate NotNewer(sess: Sessions, n: Msg, g: Gen)
    requires g in sess
  {
    GenOf(n).Some? && GenOf(n).value in sess && sess[GenOf(n).value].uuid == sess[g].uuid
    && sess[g].phase < UNREGISTERED ==>
      GenOf(n).value <= g
  }

  lemma EnqueuedComesLast(c: Codec, s: State, g: Gen, f: Flight, i: nat)
    requires Enabled(c, s, SendEnqueue(g, f)) && i < |s.log| && SessionOk(g, s.sess[g])
    requires MsgOk(c, s.sess, s.log[i]) && NotNewer(s.sess, s.log[i], g)
    ensures MayPrecede(s.sess, s.log[i], Emitted(s, SendEnqueue(g, f))[0])
  {
    hide SlotsIn, SlotsOf, KeysOf, AreTombstones, AllOwned, NoMarkers, Announced, IsMarker, ClassifyKey, GoesBefore;
  }

  lemma AnnouncedComesLast(c: Codec, s: State, g: Gen, ops: seq<ParsedOp>, i: nat)
    requires Enabled(c, s, Announce(g, ops)) && i < |s.log| && SweepOk(s.log, g, s.sess[g])
    requires MsgOk(c, s.sess, s.log[i]) && NotNewer(s.sess, s.log[i], g)
    ensures MayPrecede(s.sess, s.log[i], Emitted(s, Announce(g, ops))[0])
  {
    hide SlotsIn, SlotsOf, KeysOf, AreTombstones, AllOwned, NoMarkers, Announced, IsMarker, ClassifyKey, GoesBefore,
         Owed, Swept;
  }

  lemma NextKeepsLog(c: Codec, s: State, e: Step)
    requires Inv(c, s) && Enabled(c, s, e)
    ensures LogOk(c, Next(c, s, e).sess, Next(c, s, e).log)
  {
    hide Next, Enabled, Ownership, AllKeysOk, ConnOk, AllSweepsOk, LogOk, AllEvolve, MsgOk, MayPrecede;
    StepEmits(c, s, e);
    StepEvolves(c, s, e);
    if Emitted(s, e) != [] {
      var m := Emitted(s, e)[0];
      EmittedIsOk(c, s, e);
      forall i | 0 <= i < |s.log| ensures MayPrecede(s.sess, s.log[i], m) { EmittedComesLast(c, s, e, i, m); }
      AppendKeepsLog(c, s.sess, s.log, m);
    } else {
      assert s.log + [] == s.log;
    }
    EvolvingKeepsLog(c, s.sess, Next(c, s, e).sess, s.log + Emitted(s, e));
  }

  // ------------------------------------------------------------------ keys stay with their owner

  lemma KeysWith(c: Codec, sess: Sessions, g: Gen, x: Session)
    requires AllKeysOk(c, sess) && KeysOk(c, x)
    ensures AllKeysOk(c, sess[g := x])
  {
  }

  lemma LaterPhaseKeepsKeys(c: Codec, x: Session, phase: nat)
    requires KeysOk(c, x) && x.phase <= phase
    ensures KeysOk(c, x.(phase := phase))
  {
  }

  lemma LocalKeys(c: Codec, s: State, e: Step)
    requires Ownership(s) && Enabled(c, s, e) && IsLocal(e) && KeysOk(c, s.sess[e.g]) && ConnOk(c, s.conn)
    ensures KeysOk(c, Next(c, s, e).sess[e.g])
  {
    SessionFacts(s, e.g);
    if e.TakeSent? || e.CloseQuit? || e.Barrier? {
      StopKeys(c, s, e);
    } else if e.SendBegin? {
      SendBeginKeys(c, s, e.g, e.f);
    } else {
      OtherLocalKeys(c, s, e);
    }
  }

  lemma OtherLocalKeys(c: Codec, s: State, e: Step)
    requires IsLocal(e) && !e.TakeSent? && !e.CloseQuit? && !e.Barrier? && !e.SendBegin? && Enabled(c, s, e)
    requires SessionOk(e.g, s.sess[e.g]) && KeysOk(c, s.sess[e.g]) && ConnOk(c, s.conn)
    ensures KeysOk(c, Next(c, s, e).sess[e.g])
  {
    hide IsSweep, SlotsOf, KeysOf, IsMarker, AreTombstones, OnBouncer, DoomedBy, Track, ClassifyKey, FreesSource,
         NoMarkers, Without;
  }

  lemma StopKeys(c: Codec, s: State, e: Step)
    requires (e.TakeSent? || e.CloseQuit? || e.Barrier?) && Enabled(c, s, e)
    requires SessionOk(e.g, s.sess[e.g]) && KeysOk(c, s.sess[e.g])
    ensures KeysOk(c, Next(c, s, e).sess[e.g])
  {
    StopActsOnItsOwn(s, e.g, e.CloseQuit?, e.Barrier?, e.TakeSent?);
    hide IsSweep, SlotsOf, KeysOf, IsMarker, AreTombstones, OnBouncer, DoomedBy;
  }

  lemma SendBeginKeys(c: Codec, s: State, g: Gen, f: Flight)
    requires Enabled(c, s, SendBegin(g, f)) && KeysOk(c, s.sess[g])
    ensures KeysOk(c, Next(c, s, SendBegin(g, f)).sess[g])
  {
    hide IsSweep, SlotsOf, KeysOf, IsMarker, AreTombstones, OnBouncer, DoomedBy;
  }

  lemma NextKeepsKeys(c: Codec, s: State, e: Step)
    requires Inv(c, s) && Enabled(c, s, e)
    ensures AllKeysOk(c, Next(c, s, e).sess)
  {
    hide LogOk, ConnOk, AllSweepsOk, KeysOk, SessionsOk, Typed, Registered, Held;
    if IsLocal(e) {
      LocalStep(c, s, e);
      LocalKeys(c, s, e);
      KeysWith(c, s.sess, e.g, Next(c, s, e).sess[e.g]);
      hide *;
    } else {
      OtherStep(c, s, e);
      OtherKeys(c, s, e);
    }
  }

  lemma NewcomerKeys(c: Codec, u: Uuid, orphan: bool)
    ensures KeysOk(c, NewSession(u, orphan))
  {
  }

  lemma OtherKeys(c: Codec, s: State, e: Step)
    requires Enabled(c, s, e) && !IsLocal(e) && AllKeysOk(c, s.sess)
    ensures AllKeysOk(c, Next(c, s, e).sess)
  {
    OtherStep(c, s, e);
    TouchedMovesOn(c, s, e);
    hide Next, Enabled, KeysOk, Touched, IsLocal;
    match Touched(s, e)
    case None =>
    case Some((g, x)) =>
      if e.Admit? || e.RegisterOrphan? || g !in s.sess {
        NewcomerKeys(c, x.uuid, x.orphan);
      } else {
        LaterPhaseKeepsKeys(c, s.sess[g], x.phase);
      }
      KeysWith(c, s.sess, g, x);
  }

  /** A marker the ops would have tracked is in the text its subject prints as. */
  predicate PrintsMarkers(c: Codec, topic: string, ops: seq<ParsedOp>) {
    forall i :: 0 <= i < |ops| && !ops[i].tombstone && IsMarker(c, Slot(topic, ops[i].key))
                && ClassifyKey(c, topic, ops[i].key).0 == Connection
                ==> ops[i].key == c.show(ClassifyKey(c, topic, ops[i].key).1)
  }

  lemma QueuedMarkersArePrinted(c: Codec, sess: Sessions, m: Msg)
    requires MsgOk(c, sess, m) && AllKeysOk(c, sess)
    ensures PrintsMarkers(c, m.topic, m.ops)
  {
    hide ClassifyKey;
    if m.origin.FromSession? && m.origin.announced {
      assert KeysOk(c, sess[m.origin.gen]);
      forall i | 0 <= i < |m.ops|
        ensures OwnKey(c, sess[m.origin.gen].uuid, Slot(m.topic, m.ops[i].key))
      {
        assert Slot(m.topic, m.ops[i].key) in SlotsIn(m);
      }
    }
  }

  /** The tracked keys of a subject are connection-scoped keys of that subject, whatever is dispatched. */
  lemma {:induction false} TrackKeepsConn(c: Codec, conn: map<Uuid, set<Slot>>, source: Uuid, topic: string,
                                          ops: seq<ParsedOp>)
    requires ConnOk(c, conn) && PrintsMarkers(c, topic, ops)
    ensures ConnOk(c, Track(c, conn, source, topic, ops))
  {
    hide ClassifyKey, Permitted, IsMarker;
    if ops != [] {
      assert PrintsMarkers(c, topic, ops[..|ops| - 1]);
      TrackKeepsConn(c, conn, source, topic, ops[..|ops| - 1]);
    }
  }

  /** A subject's own key is tracked after a message exactly as the last op on it says, or else as it was before. */
  lemma {:induction false} TrackedExactly(c: Codec, conn: map<Uuid, set<Slot>>, source: Uuid, topic: string,
                                          ops: seq<ParsedOp>, u: Uuid, key: string)
    requires u != NIL && ClassifyKey(c, topic, key) == (Connection, u) && (source == NIL || source == u)
    ensures var after, last, k := Track(c, conn, source, topic, ops), LastIndex(ops, key), Slot(topic, key);
            if last.Some? then u in after && k in after[u] <==> !ops[last.value].tombstone
            else (u in after && k in after[u] <==> u in conn && k in conn[u])
  {
    hide ClassifyKey;
    if ops != [] { TrackedExactly(c, conn, source, topic, ops[..|ops| - 1], u, key); }
  }

  lemma NextKeepsConn(c: Codec, s: State, e: Step)
    requires Inv(c, s) && Enabled(c, s, e)
    ensures ConnOk(c, Next(c, s, e).conn)
  {
    hide LogOk, AllSweepsOk, SessionsOk, Typed, Registered, Held, AllKeysOk, MsgOk, PrintsMarkers;
    if IsLocal(e) {
      LocalStep(c, s, e);
      hide *;
    } else {
      hide Track, AllOwned, ClassifyKey, Without, IsSweep;
      if e.Drain? {
        var m := s.log[s.drained];
        LoggedIsOk(c, s.sess, s.log, s.drained);
        QueuedMarkersArePrinted(c, s.sess, m);
        TrackKeepsConn(c, s.conn, m.source, m.topic, m.ops);
      }
    }
  }

  // ------------------------------------------------------------------ nothing doomed is forgotten

  lemma SweptLonger(log: seq<Msg>, tail: seq<Msg>, g: Gen, k: Slot)
    requires Swept(log, g, k)
    ensures Swept(log + tail, g, k)
  {
    var i :| 0 <= i < |log| && Sweeps(log[i], g, k);
    assert (log + tail)[i] == log[i];
  }

  /** A message that is not g's own tombstone batch leaves g's sweep as it was. */
  lemma OthersKeepSweep(log: seq<Msg>, m: Msg, g: Gen, x: Session)
    requires SweepOk(log, g, x) && m.origin != FromDeparture(g)
    ensures SweepOk(log + [m], g, x)
  {
    hide Swept, Owed, SlotsOf, GoesBefore;
    forall k | k in x.doomed && Swept(log, g, k) ensures Swept(log + [m], g, k) { SweptLonger(log, [m], g, k); }
  }

  lemma AnnounceKeepsSweep(log: seq<Msg>, g: Gen, x: Session, ops: seq<ParsedOp>)
    requires SweepOk(log, g, x) && x.phase == ANNOUNCING && x.pending != [] && AreTombstones(ops, x.pending[0].keys)
    ensures SweepOk(log + [Msg(FromDeparture(g), NIL, x.pending[0].topic, ops)], g, x.(pending := x.pending[1..]))
  {
    var m := Msg(FromDeparture(g), NIL, x.pending[0].topic, ops);
    var rest := x.pending[1..];
    assert forall k :: k in SlotsOf(x.pending[0]) ==> Sweeps(m, g, k);
    hide GoesBefore, KeysOf, AreTombstones, SlotsOf;
    forall k | k in x.doomed
      ensures Owed(rest, k) || Swept(log + [m], g, k)
    {
      if Swept(log, g, k) {
        SweptLonger(log, [m], g, k);
      } else {
        var i :| 0 <= i < |x.pending| && k in SlotsOf(x.pending[i]);
        if i == 0 {
          assert (log + [m])[|log|] == m;
        } else {
          assert rest[i - 1] == x.pending[i];
        }
      }
    }
    hide Swept, Owed, Sweeps;
  }

  lemma TakeSentOpensSweep(c: Codec, s: State, g: Gen, pending: seq<Batch>)
    requires Ownership(s) && Enabled(c, s, TakeSent(g, pending)) && LogOk(c, s.sess, s.log)
    ensures SweepOk(s.log + Emitted(s, TakeSent(g, pending)), g, Next(c, s, TakeSent(g, pending)).sess[g])
  {
    assert s.log + [] == s.log;
    forall i | 0 <= i < |s.log| ensures s.log[i].origin != FromDeparture(g) { assert MsgOk(c, s.sess, s.log[i]); }
    hide Ownership, LogOk, SlotsOf, GoesBefore, MsgOk;
  }

  lemma LocalSweep(c: Codec, s: State, e: Step)
    requires Ownership(s) && LogOk(c, s.sess, s.log) && Enabled(c, s, e) && IsLocal(e) && e.g in s.sess
    requires SweepOk(s.log, e.g, s.sess[e.g])
    ensures SweepOk(s.log + Emitted(s, e), e.g, Next(c, s, e).sess[e.g])
  {
    hide Ownership, LogOk, SweepOk, Next, Emitted, SessionOk, Replaces, Enabled;
    LocalStep(c, s, e);
    if e.TakeSent? {
      TakeSentOpensSweep(c, s, e.g, e.pending);
    } else if e.Announce? {
      AnnounceStepKeepsSweep(c, s, e.g, e.ops);
    } else if e.SendEnqueue? {
      EnqueueKeepsSweep(c, s, e.g, e.f);
    } else {
      LocalSweepUntouched(c, s, e);
      SameSweep(s.log, e.g, s.sess[e.g], Next(c, s, e).sess[e.g]);
      assert s.log + [] == s.log;
    }
  }

  lemma SameSweep(log: seq<Msg>, g: Gen, x: Session, y: Session)
    requires SweepOk(log, g, x)
    requires y.phase < ANNOUNCING || (x.phase >= ANNOUNCING && y.doomed == x.doomed && y.pending == x.pending)
    ensures SweepOk(log, g, y)
  {
    hide Owed, Swept, GoesBefore, SlotsOf;
  }

  lemma AnnounceStepKeepsSweep(c: Codec, s: State, g: Gen, ops: seq<ParsedOp>)
    requires Enabled(c, s, Announce(g, ops)) && SweepOk(s.log, g, s.sess[g])
    ensures SweepOk(s.log + Emitted(s, Announce(g, ops)), g, Next(c, s, Announce(g, ops)).sess[g])
  {
    AnnounceKeepsSweep(s.log, g, s.sess[g], ops);
    hide SweepOk, AreTombstones, KeysOf;
  }

  lemma EnqueueKeepsSweep(c: Codec, s: State, g: Gen, f: Flight)
    requires Enabled(c, s, SendEnqueue(g, f)) && SweepOk(s.log, g, s.sess[g])
    ensures SweepOk(s.log + Emitted(s, SendEnqueue(g, f)), g, Next(c, s, SendEnqueue(g, f)).sess[g])
  {
    var e := SendEnqueue(g, f);
    assert var x, y := s.sess[g], Next(c, s, e).sess[g];
           y.phase == x.phase && y.doomed == x.doomed && y.pending == x.pending;
    assert Emitted(s, e) == [Msg(FromSession(g, f.announced), s.sess[g].uuid, f.topic, f.ops)];
    OthersKeepSweep(s.log, Emitted(s, e)[0], g, s.sess[g]);
    SameSweep(s.log + Emitted(s, e), g, s.sess[g], Next(c, s, e).sess[g]);
    hide *;
  }

  /** The other steps of a session leave its sweep alone, or come before there is one. */
  lemma LocalSweepUntouched(c: Codec, s: State, e: Step)
    requires Ownership(s) && Enabled(c, s, e) && IsLocal(e) && !e.TakeSent? && !e.Announce? && !e.SendEnqueue?
    ensures var x, y := s.sess[e.g], Next(c, s, e).sess[e.g];
            y.phase < ANNOUNCING || (x.phase >= ANNOUNCING && y.doomed == x.doomed && y.pending == x.pending)
    ensures Emitted(s, e) == []
  {
    hide Typed, Registered, Held, IsSweep, AllOwned, SlotsOf, KeysOf, IsMarker, AreTombstones;
    var g := e.g;
    SessionFacts(s, g);
    match e
    case CloseQuit(_) => StopActsOnItsOwn(s, g, true, false, false);
    case Barrier(_) => StopActsOnItsOwn(s, g, false, true, false);
    case _ =>
  }

  lemma SweepsWith(log: seq<Msg>, tail: seq<Msg>, sess: Sessions, g: Gen, x: Session)
    requires AllSweepsOk(log, sess) && SweepOk(log + tail, g, x)
    requires tail == [] || exists m :: tail == [m] && forall h :: h in sess && h != g ==> m.origin != FromDeparture(h)
    ensures AllSweepsOk(log + tail, sess[g := x])
  {
    hide SweepOk;
    assert log + [] == log;
    forall h | h in sess && h != g
      ensures SweepOk(log + tail, h, sess[h])
    {
      assert SweepOk(log, h, sess[h]);
      if tail != [] { OthersKeepSweep(log, tail[0], h, sess[h]); }
    }
  }

  lemma OtherSweeps(c: Codec, s: State, e: Step)
    requires Enabled(c, s, e) && !IsLocal(e) && AllSweepsOk(s.log, s.sess)
    ensures AllSweepsOk(Next(c, s, e).log, Next(c, s, e).sess)
  {
    OtherStep(c, s, e);
    TouchedMovesOn(c, s, e);
    hide Next, Enabled, SweepOk, AllSweepsOk, Touched, IsLocal;
    assert s.log + [] == s.log;
    match Touched(s, e)
    case Some((g, x)) =>
      if x.phase < ANNOUNCING {
        BeforeSweep(s.log, g, x);
      } else {
        SweepOf(s, g);
        SameSweep(s.log, g, s.sess[g], x);
      }
      SweepsWith(s.log, [], s.sess, g, x);
    case None =>
      if e.SweepPolicy? { SystemKeepsSweeps(s.log, Msg(FromSystem, NIL, e.topic, e.ops), s.sess); }
  }

  lemma SweepOf(s: State, g: Gen)
    requires AllSweepsOk(s.log, s.sess) && g in s.sess
    ensures SweepOk(s.log, g, s.sess[g])
  {
  }

  lemma BeforeSweep(log: seq<Msg>, g: Gen, x: Session)
    requires x.phase < ANNOUNCING
    ensures SweepOk(log, g, x)
  {
  }

  lemma SystemKeepsSweeps(log: seq<Msg>, m: Msg, sess: Sessions)
    requires AllSweepsOk(log, sess) && m.origin == FromSystem
    ensures AllSweepsOk(log + [m], sess)
  {
    hide SweepOk;
    forall h | h in sess ensures SweepOk(log + [m], h, sess[h]) { OthersKeepSweep(log, m, h, sess[h]); }
  }

  lemma NextKeepsSweeps(c: Codec, s: State, e: Step)
    requires Inv(c, s) && Enabled(c, s, e)
    ensures AllSweepsOk(Next(c, s, e).log, Next(c, s, e).sess)
  {
    if IsLocal(e) {
      LocalStep(c, s, e);
      SweepOf(s, e.g);
      LocalSweep(c, s, e);
      StepEmits(c, s, e);
      assert Emitted(s, e) == []
             || exists m :: Emitted(s, e) == [m]
                            && forall h :: h in s.sess && h != e.g ==> m.origin != FromDeparture(h) by {
        hide Inv, Ownership, Next, Enabled, AllSweepsOk;
        if e.Announce? || e.SendEnqueue? {
          if Emitted(s, e) != [] { assert Emitted(s, e) == [Emitted(s, e)[0]]; }
        }
      }
      SweepsWith(s.log, Emitted(s, e), s.sess, e.g, Next(c, s, e).sess[e.g]);
      hide *;
    } else {
      OtherSweeps(c, s, e);
    }
  }

  lemma NextKeepsInv(c: Codec, s: State, e: Step)
    requires Inv(c, s) && Enabled(c, s, e)
    ensures Inv(c, Next(c, s, e))
  {
    hide Next, Enabled, Ownership, LogOk, AllKeysOk, ConnOk, AllSweepsOk;
    NextKeepsOwnership(c, s, e);
    NextKeepsLog(c, s, e);
    NextKeepsKeys(c, s, e);
    NextKeepsConn(c, s, e);
    NextKeepsSweeps(c, s, e);
  }
}
