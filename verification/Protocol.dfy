/**
 * Sessions, their departures and the one inbound queue, as a transition system. Every step is one critical
 * section, one channel operation or one atomic of the program; steps of different sessions interleave freely.
 */
module Protocol {
  import opened Common
  import opened Scope

  /** A session instance; generations are handed out in increasing order. */
  type Gen = nat

  // The phases of DepartNode. A live entry is in phase LIVE, a departed one in FINISHED, and a departing one between.
  const LIVE := 0
  const SEVERED := 1        // the Live -> Departing CAS was won and the transport killed
  const CAPTURED := 2       // handler and bouncer looked up under the lock, client quiesced
  const QUITTING := 3       // Stop has closed quit
  const BARRED := 4         // Stop has crossed the send barrier
  const TRACKED := 5        // the subject-tracked keys have been copied
  const ANNOUNCING := 6     // the sent keys have been taken; tombstone batches are going out
  const REMOVED := 7        // NODE_CHANGE_DELETE enqueued
  const RELEASED := 8       // handler, bouncer and tracked keys released
  const UNREGISTERED := 9
  const FINISHED := 10

  datatype Batch = Batch(topic: string, keys: set<string>)

  /** A message inside SendString, past the stopped check and holding the read lock. */
  datatype Flight = Flight(topic: string, ops: seq<ParsedOp>, announced: bool)

  datatype Origin = FromSession(gen: Gen, announced: bool) | FromDeparture(gen: Gen) | FromSystem

  /** One StringMessage on StringChIn; source is NIL for system and departure messages. */
  datatype Msg = Msg(origin: Origin, source: Uuid, topic: string, ops: seq<ParsedOp>)

  datatype Session = Session(
    uuid: Uuid, orphan: bool, phase: nat,
    handler: Option<Gen>, bouncer: Option<Gen>,     // captured by this entry's departure
    doomed: set<Slot>, pending: seq<Batch>,
    quit: bool, stopped: bool, inflight: multiset<Flight>,   // this session's own bouncer
    sent: set<Slot>, marked: set<Batch>)                     // this session's own client

  datatype Change = AddNode(u: Uuid) | DeleteNode(u: Uuid)

  datatype State = State(
    sess: map<Gen, Session>, nextGen: Gen,
    registry: map<Uuid, Gen>, handlers: map<Uuid, Gen>, bouncers: map<Uuid, Gen>,
    conn: map<Uuid, set<Slot>>,
    log: seq<Msg>, drained: nat,             // everything ever enqueued, and how much of it was dispatched
    mixer: seq<Change>, nodes: set<Uuid>)

  datatype Step =
    | Admit(u: Uuid, waited: bool)
    | RegisterOrphan(u: Uuid)
    | Begin(g: Gen)
    | Capture(g: Gen)
    | CloseQuit(g: Gen)
    | Barrier(g: Gen)
    | SnapshotTracked(g: Gen)
    | TakeSent(g: Gen, pending: seq<Batch>)
    | Announce(g: Gen, ops: seq<ParsedOp>)
    | EnqueueDelete(g: Gen)
    | Release(g: Gen)
    | Unregister(g: Gen)
    | MarkDeparted(g: Gen)
    | Mark(g: Gen, batch: Batch)
    | SendBegin(g: Gen, f: Flight)
    | SendEnqueue(g: Gen, f: Flight)
    | SendAbort(g: Gen, f: Flight)
    | SweepPolicy(topic: string, ops: seq<ParsedOp>)
    | Drain
    | MixerStep

  // ------------------------------------------------------------------ vocabulary

  function KeysOf(ops: seq<ParsedOp>): set<string> { set i | 0 <= i < |ops| :: ops[i].key }

  lemma KeysOfLast(ops: seq<ParsedOp>)
    requires ops != []
    ensures KeysOf(ops) == KeysOf(ops[..|ops| - 1]) + {ops[|ops| - 1].key}
  {
    var n := |ops| - 1;
    forall x | x in KeysOf(ops)
      ensures x in KeysOf(ops[..n]) + {ops[n].key}
    {
      var i :| 0 <= i < |ops| && ops[i].key == x;
      if i < n { assert ops[..n][i] == ops[i]; }
    }
    forall x | x in KeysOf(ops[..n])
      ensures x in KeysOf(ops)
    {
      var i :| 0 <= i < n && ops[..n][i].key == x;
      assert ops[i].key == x;
    }
    assert ops[n].key in KeysOf(ops);
  }

  /** Where the ops name the key last. */
  function LastIndex(ops: seq<ParsedOp>, key: string): (r: Option<nat>)
    ensures r.Some? ==> r.value < |ops| && ops[r.value].key == key
    ensures r.Some? ==> forall j :: r.value < j < |ops| ==> ops[j].key != key
    ensures r.None? ==> forall j :: 0 <= j < |ops| ==> ops[j].key != key
  {
    if ops == [] then None
    else if ops[|ops| - 1].key == key then Some(|ops| - 1)
    else LastIndex(ops[..|ops| - 1], key)
  }

  function SlotsOf(b: Batch): set<Slot> { set k | k in b.keys :: Slot(b.topic, k) }

  /** A bare-uuid key on the entity topic: the existence marker. */
  predicate IsMarker(c: Codec, k: Slot) { k.topic == "entity" && c.parse(k.key).Some? }

  /** u's own connection-scoped key; if it is the marker, then in the text u prints as. */
  predicate OwnKey(c: Codec, u: Uuid, k: Slot) {
    Owns(c, u, k.topic, k.key) && (IsMarker(c, k) ==> k.key == c.show(u))
  }

  predicate AllOwned(c: Codec, u: Uuid, slots: set<Slot>) { forall k :: k in slots ==> OwnKey(c, u, k) }

  /** attributes, then entity, then anything else. */
  function TopicRank(topic: string): nat { if topic == "attributes" then 0 else if topic == "entity" then 1 else 2 }

  /** In one sweep a batch of topic a may stand before one of topic b. */
  predicate GoesBefore(a: string, b: string) { a != b && TopicRank(a) <= TopicRank(b) }

  /** One non-empty batch per topic, in sweep order, covering exactly the doomed slots. */
  ghost predicate IsSweep(doomed: set<Slot>, pending: seq<Batch>) {
    && (forall k :: k in doomed <==> exists i :: 0 <= i < |pending| && k in SlotsOf(pending[i]))
    && (forall i, j :: 0 <= i < j < |pending| ==> GoesBefore(pending[i].topic, pending[j].topic))
  }

  predicate AreTombstones(ops: seq<ParsedOp>, keys: set<string>) {
    KeysOf(ops) == keys && forall i :: 0 <= i < |ops| ==> ops[i].tombstone
  }

  function Tracked(s: State, u: Uuid): set<Slot> { if u in s.conn then s.conn[u] else {} }

  function Lookup(m: map<Uuid, Gen>, u: Uuid): Option<Gen> { if u in m then Some(m[u]) else None }

  function Without(m: map<Uuid, Gen>, u: Uuid, captured: Option<Gen>): map<Uuid, Gen> {
    if captured.Some? && u in m && m[u] == captured.value then m - {u} else m
  }

  function With(s: State, g: Gen, x: Session): State { s.(sess := s.sess[g := x]) }

  function NewSession(u: Uuid, orphan: bool): Session {
    Session(u, orphan, LIVE, None, None, {}, [], false, false, multiset{}, {}, {})
  }

  /** trackConnKey and untrackConnKey over the ops of one message, in order. */
  function Track(c: Codec, conn: map<Uuid, set<Slot>>, source: Uuid, topic: string, ops: seq<ParsedOp>)
    : map<Uuid, set<Slot>>
  {
    if ops == [] then conn
    else
      var before := Track(c, conn, source, topic, ops[..|ops| - 1]);
      var op := ops[|ops| - 1];
      var (scope, subject) := ClassifyKey(c, topic, op.key);
      if !Permitted(c, source, topic, op.key) || subject == NIL then before
      else if op.tombstone then
        if subject in before then before[subject := before[subject] - {Slot(topic, op.key)}] else before
      else if scope == Connection then
        before[subject := (if subject in before then before[subject] else {}) + {Slot(topic, op.key)}]
      else before
  }

  // ------------------------------------------------------------------ steps

  predicate InPhase(s: State, g: Gen, phase: nat) { g in s.sess && s.sess[g].phase == phase }

  predicate HasClient(s: State, g: Gen) { g in s.sess && !s.sess[g].orphan }

  ghost predicate Enabled(c: Codec, s: State, e: Step) {
    match e
    case Admit(u, waited) => u != NIL && u !in s.registry && (!waited ==> u !in s.nodes)
    case RegisterOrphan(u) => u != NIL && u !in s.registry
    case Begin(g) => InPhase(s, g, LIVE)
    case Capture(g) => InPhase(s, g, SEVERED)
    case CloseQuit(g) => InPhase(s, g, CAPTURED)
    case Barrier(g) =>
      InPhase(s, g, QUITTING)
      && (s.sess[g].bouncer.Some? && s.sess[g].bouncer.value in s.sess ==>
              s.sess[s.sess[g].bouncer.value].inflight == multiset{})
    case SnapshotTracked(g) => InPhase(s, g, BARRED)
    case TakeSent(g, pending) => InPhase(s, g, TRACKED) && IsSweep(DoomedBy(s, g), pending)
    case Announce(g, ops) =>
      InPhase(s, g, ANNOUNCING) && s.sess[g].pending != [] && AreTombstones(ops, s.sess[g].pending[0].keys)
    case EnqueueDelete(g) => InPhase(s, g, ANNOUNCING) && s.sess[g].pending == []
    case Release(g) => InPhase(s, g, REMOVED)
    case Unregister(g) => InPhase(s, g, RELEASED)
    case MarkDeparted(g) => InPhase(s, g, UNREGISTERED)
    case Mark(g, b) => HasClient(s, g) && AllOwned(c, s.sess[g].uuid, SlotsOf(b))
    case SendBegin(g, f) =>
      && HasClient(s, g) && !s.sess[g].stopped
      && (if f.announced then
            Batch(f.topic, KeysOf(f.ops)) in s.sess[g].marked && forall i :: 0 <= i < |f.ops| ==> !f.ops[i].tombstone
          else forall i :: 0 <= i < |f.ops| ==> !IsMarker(c, Slot(f.topic, f.ops[i].key)))
    case SendEnqueue(g, f) => g in s.sess && f in s.sess[g].inflight
    case SendAbort(g, f) => g in s.sess && f in s.sess[g].inflight && s.sess[g].quit
    case SweepPolicy(topic, ops) => forall i :: 0 <= i < |ops| ==> ClassifyKey(c, topic, ops[i].key).0 == Policy
    case Drain => s.drained < |s.log|
    case MixerStep => s.mixer != []
  }

  /** The keys a departure sweeps: the tracked ones it copied and the sent ones it takes from the client. */
  function DoomedBy(s: State, g: Gen): set<Slot>
    requires g in s.sess
  {
    s.sess[g].doomed
    + (if s.sess[g].bouncer.Some? && s.sess[g].bouncer.value in s.sess then s.sess[s.sess[g].bouncer.value].sent
       else {})
  }

  /** Change the bouncer a departure captured, if it captured one. */
  function OnBouncer(s: State, g: Gen, quit: bool, stopped: bool, clearSent: bool): State
    requires g in s.sess
  {
    if s.sess[g].bouncer.Some? && s.sess[g].bouncer.value in s.sess then
      var b := s.sess[g].bouncer.value;
      var x := s.sess[b];
      With(s, b, x.(quit := x.quit || quit, stopped := x.stopped || stopped, sent := if clearSent then {} else x.sent))
    else s
  }

  function SetPhase(s: State, g: Gen, phase: nat): State
    requires g in s.sess
  {
    With(s, g, s.sess[g].(phase := phase))
  }

  function Next(c: Codec, s: State, e: Step): State
    requires Enabled(c, s, e)
  {
    match e
    case Admit(u, waited) =>
      var g := s.nextGen;
      s.(sess := s.sess[g := NewSession(u, false)], nextGen := g + 1,
         registry := s.registry[u := g], handlers := s.handlers[u := g], bouncers := s.bouncers[u := g],
         mixer := s.mixer + [AddNode(u)])
    case RegisterOrphan(u) =>
      var g := s.nextGen;
      s.(sess := s.sess[g := NewSession(u, true)], nextGen := g + 1, registry := s.registry[u := g])
    case Begin(g) => SetPhase(s, g, SEVERED)
    case Capture(g) =>
      var u := s.sess[g].uuid;
      var h := Lookup(s.handlers, u);
      var mine := h.Some? && (h.value == g || (h.value in s.sess && s.sess[h.value].phase == FINISHED));
      With(s, g, s.sess[g].(phase := CAPTURED, handler := if mine then h else None, bouncer := Lookup(s.bouncers, u)))
    case CloseQuit(g) => SetPhase(OnBouncer(s, g, true, false, false), g, QUITTING)
    case Barrier(g) => SetPhase(OnBouncer(s, g, false, true, false), g, BARRED)
    case SnapshotTracked(g) =>
      With(s, g, s.sess[g].(phase := TRACKED, doomed := Tracked(s, s.sess[g].uuid)))
    case TakeSent(g, pending) =>
      var t := OnBouncer(s, g, false, false, true);
      With(t, g, t.sess[g].(phase := ANNOUNCING, doomed := DoomedBy(s, g), pending := pending))
    case Announce(g, ops) =>
      var x := s.sess[g];
      With(s, g, x.(pending := x.pending[1..])).(log := s.log + [Msg(FromDeparture(g), NIL, x.pending[0].topic, ops)])
    case EnqueueDelete(g) => SetPhase(s, g, REMOVED).(mixer := s.mixer + [DeleteNode(s.sess[g].uuid)])
    case Release(g) =>
      var x := s.sess[g];
      SetPhase(s, g, RELEASED).(handlers := Without(s.handlers, x.uuid, x.handler),
                                bouncers := Without(s.bouncers, x.uuid, x.bouncer),
                                conn := s.conn - {x.uuid})
    case Unregister(g) =>
      SetPhase(s, g, UNREGISTERED).(registry := Without(s.registry, s.sess[g].uuid, Some(g)))
    case MarkDeparted(g) => SetPhase(s, g, FINISHED)
    case Mark(g, b) =>
      With(s, g, s.sess[g].(sent := s.sess[g].sent + SlotsOf(b), marked := s.sess[g].marked + {b}))
    case SendBegin(g, f) => With(s, g, s.sess[g].(inflight := s.sess[g].inflight + multiset{f}))
    case SendEnqueue(g, f) =>
      With(s, g, s.sess[g].(inflight := s.sess[g].inflight - multiset{f}))
      .(log := s.log + [Msg(FromSession(g, f.announced), s.sess[g].uuid, f.topic, f.ops)])
    case SendAbort(g, f) => With(s, g, s.sess[g].(inflight := s.sess[g].inflight - multiset{f}))
    case SweepPolicy(topic, ops) => s.(log := s.log + [Msg(FromSystem, NIL, topic, ops)])
    case Drain =>
      var m := s.log[s.drained];
      s.(drained := s.drained + 1, conn := Track(c, s.conn, m.source, m.topic, m.ops))
    case MixerStep =>
      match s.mixer[0] {
        case AddNode(u) => s.(mixer := s.mixer[1..], nodes := s.nodes + {u})
        case DeleteNode(u) =>
          var t := s.(mixer := s.mixer[1..], nodes := s.nodes - {u});
          if FreesSource(s) then SetPhase(t, s.registry[u], SEVERED) else t
      }
  }

  /** FreeSource looks the entry up by uuid: the node is there and some live entry is registered for it. */
  predicate FreesSource(s: State) {
    && s.mixer != [] && s.mixer[0].DeleteNode? && s.mixer[0].u in s.nodes && s.mixer[0].u in s.registry
    && s.registry[s.mixer[0].u] in s.sess && s.sess[s.registry[s.mixer[0].u]].phase == LIVE
  }

  function Init(): State { State(map[], 1, map[], map[], map[], map[], [], 0, [], {}) }

  // ------------------------------------------------------------------ who owns what

  type Sessions = map<Gen, Session>

  /** Registry entries name known sessions of their uuid; known generations are below nextGen. */
  ghost predicate Typed(sess: Sessions, nextGen: Gen, registry: map<Uuid, Gen>) {
    && (forall g :: g in sess ==> g < nextGen && sess[g].uuid != NIL)
    && (forall u :: u in registry ==>
            registry[u] in sess && sess[registry[u]].uuid == u && sess[registry[u]].phase < UNREGISTERED)
  }

  /** An entry is registered exactly until it unregisters, and it is then the newest of its uuid. */
  ghost predicate Registered(sess: Sessions, registry: map<Uuid, Gen>) {
    && (forall g :: g in sess && sess[g].phase < UNREGISTERED ==>
            sess[g].uuid in registry && registry[sess[g].uuid] == g)
    && (forall g, h :: g in sess && h in sess && sess[g].uuid == sess[h].uuid && sess[g].phase < UNREGISTERED ==>
            h <= g)
  }

  /** A resource map holds exactly the sessions that have a client and have not released it. */
  ghost predicate Held(sess: Sessions, held: map<Uuid, Gen>) {
    && (forall g :: g in sess && !sess[g].orphan && sess[g].phase < RELEASED ==>
            sess[g].uuid in held && held[sess[g].uuid] == g)
    && (forall u :: u in held ==>
          held[u] in sess && sess[held[u]].uuid == u && !sess[held[u]].orphan && sess[held[u]].phase < RELEASED)
  }

  /** What a departure captured is its own, and its own bouncer is stopped exactly from BARRED on. */
  predicate SessionOk(g: Gen, x: Session) {
    && x.phase <= FINISHED
    && (x.phase >= CAPTURED ==> x.handler == x.bouncer == if x.orphan then None else Some(g))
    && (x.stopped <==> !x.orphan && x.phase >= BARRED)
    && (x.quit <==> !x.orphan && x.phase >= QUITTING)
    && (x.stopped || x.orphan ==> x.inflight == multiset{})
    && (x.orphan ==> x.sent == {} && x.marked == {})
    && (x.phase != ANNOUNCING ==> x.pending == [])
  }

  ghost predicate SessionsOk(sess: Sessions) { forall g :: g in sess ==> SessionOk(g, sess[g]) }

  ghost predicate Ownership(s: State) {
    && Typed(s.sess, s.nextGen, s.registry) && Registered(s.sess, s.registry)
    && Held(s.sess, s.handlers) && Held(s.sess, s.bouncers) && SessionsOk(s.sess) && s.drained <= |s.log|
  }

  lemma InitOwnership()
    ensures Ownership(Init())
  {
  }

  /** x may replace session g without touching any map. */
  predicate Replaces(x: Session, y: Session) {
    && x.uuid == y.uuid && x.orphan == y.orphan
    && (x.phase < RELEASED <==> y.phase < RELEASED) && (x.phase < UNREGISTERED <==> y.phase < UNREGISTERED)
  }

  lemma ReplaceKeepsMaps(s: State, g: Gen, x: Session)
    requires Ownership(s) && g in s.sess && SessionOk(g, x) && Replaces(x, s.sess[g])
    ensures var sess := s.sess[g := x];
            && Typed(sess, s.nextGen, s.registry) && Registered(sess, s.registry)
            && Held(sess, s.handlers) && Held(sess, s.bouncers) && SessionsOk(sess)
  {
    hide SessionOk;
    ReplaceKeepsRegistered(s.sess, s.nextGen, s.registry, g, x);
    ReplaceKeepsHeld(s.sess, s.handlers, g, x);
    ReplaceKeepsHeld(s.sess, s.bouncers, g, x);
  }

  lemma ReplaceKeepsRegistered(sess: Sessions, nextGen: Gen, registry: map<Uuid, Gen>, g: Gen, x: Session)
    requires Typed(sess, nextGen, registry) && Registered(sess, registry) && g in sess && Replaces(x, sess[g])
    ensures Typed(sess[g := x], nextGen, registry) && Registered(sess[g := x], registry)
  {
  }

  lemma ReplaceKeepsHeld(sess: Sessions, held: map<Uuid, Gen>, g: Gen, x: Session)
    requires Held(sess, held) && g in sess && Replaces(x, sess[g])
    ensures Held(sess[g := x], held)
  {
  }

  lemma SessionsWith(sess: Sessions, g: Gen, x: Session)
    requires SessionsOk(sess) && SessionOk(g, x)
    ensures SessionsOk(sess[g := x])
  {
  }

  lemma SessionFacts(s: State, g: Gen)
    requires SessionsOk(s.sess) && g in s.sess
    ensures SessionOk(g, s.sess[g])
  {
  }

  /** A capture finds the session's own handler and bouncer, and an orphan's capture finds nothing. */
  lemma CapturesItsOwn(c: Codec, s: State, g: Gen)
    requires Ownership(s) && Enabled(c, s, Capture(g))
    ensures var x := Next(c, s, Capture(g)).sess[g]; x.handler == x.bouncer == if x.orphan then None else Some(g)
  {
    var u := s.sess[g].uuid;
    if s.sess[g].orphan {
      HeldMeansRegistered(s, s.handlers, u);
      HeldMeansRegistered(s, s.bouncers, u);
    }
  }

  lemma HeldMeansRegistered(s: State, held: map<Uuid, Gen>, u: Uuid)
    requires Registered(s.sess, s.registry) && Held(s.sess, held)
    ensures u in held ==> u in s.registry && s.registry[u] == held[u] && !s.sess[held[u]].orphan
  {
  }

  /** A departure's Stop acts on its own bouncer, so these steps change one session only. */
  lemma StopActsOnItsOwn(s: State, g: Gen, quit: bool, stopped: bool, clearSent: bool)
    requires g in s.sess && SessionOk(g, s.sess[g]) && s.sess[g].phase >= CAPTURED
    ensures OnBouncer(s, g, quit, stopped, clearSent) ==
            if s.sess[g].orphan then s
            else With(s, g, s.sess[g].(quit := s.sess[g].quit || quit, stopped := s.sess[g].stopped || stopped,
                                       sent := if clearSent then {} else s.sess[g].sent))
    ensures DoomedBy(s, g) == s.sess[g].doomed + s.sess[g].sent
  {
  }

  /** Steps that rewrite one session in place. */
  predicate IsLocal(e: Step) {
    !(e.Admit? || e.RegisterOrphan? || e.Release? || e.Unregister? || e.SweepPolicy? || e.Drain? || e.MixerStep?)
  }

  lemma LocalStep(c: Codec, s: State, e: Step)
    requires Ownership(s) && Enabled(c, s, e) && IsLocal(e)
    ensures LocalTo(s, Next(c, s, e), e.g)
  {
    hide Typed, Registered, Held, IsSweep, LocalTo;
    SessionFacts(s, e.g);
    if e.Capture? {
      CapturesItsOwn(c, s, e.g);
      hide Ownership;
      CaptureIsLocal(c, s, e.g);
    } else {
      hide Ownership;
      if e.CloseQuit? || e.Barrier? || e.TakeSent? { StopIsLocal(c, s, e); } else { OthersAreLocal(c, s, e); }
    }
  }

  /** From s to t only session g changed, into a session in order, and only the queues grew. */
  predicate LocalTo(s: State, t: State, g: Gen) {
    && g in s.sess && g in t.sess && t.sess == s.sess[g := t.sess[g]]
    && SessionOk(g, t.sess[g]) && Replaces(t.sess[g], s.sess[g])
    && t.(sess := s.sess, log := s.log, mixer := s.mixer) == s && |s.log| <= |t.log|
  }

  lemma CaptureIsLocal(c: Codec, s: State, g: Gen)
    requires Enabled(c, s, Capture(g)) && SessionOk(g, s.sess[g])
    requires var x := Next(c, s, Capture(g)).sess[g]; x.handler == x.bouncer == if x.orphan then None else Some(g)
    ensures LocalTo(s, Next(c, s, Capture(g)), g)
  {
  }

  lemma StopIsLocal(c: Codec, s: State, e: Step)
    requires (e.CloseQuit? || e.Barrier? || e.TakeSent?) && Enabled(c, s, e) && SessionOk(e.g, s.sess[e.g])
    ensures LocalTo(s, Next(c, s, e), e.g)
  {
    StopActsOnItsOwn(s, e.g, e.CloseQuit?, e.Barrier?, e.TakeSent?);
    hide OnBouncer, DoomedBy, IsSweep;
  }

  lemma OthersAreLocal(c: Codec, s: State, e: Step)
    requires IsLocal(e) && !e.Capture? && !e.CloseQuit? && !e.Barrier? && !e.TakeSent?
    requires Enabled(c, s, e) && SessionOk(e.g, s.sess[e.g])
    ensures LocalTo(s, Next(c, s, e), e.g)
  {
    hide OnBouncer, DoomedBy, IsSweep, Track, FreesSource, Without, IsMarker, AllOwned, SlotsOf, KeysOf, ClassifyKey;
  }

  lemma AdmitKeepsOwnership(c: Codec, s: State, u: Uuid, waited: bool)
    requires Ownership(s) && Enabled(c, s, Admit(u, waited))
    ensures Ownership(Next(c, s, Admit(u, waited)))
  {
    hide Typed, Registered, Held, SessionsOk;
    SessionsWith(s.sess, s.nextGen, NewSession(u, false));
    NewcomerIsRegistered(s, u, false);
    NewcomerHolds(s, s.handlers, u);
    NewcomerHolds(s, s.bouncers, u);
  }

  lemma OrphanKeepsOwnership(c: Codec, s: State, u: Uuid)
    requires Ownership(s) && Enabled(c, s, RegisterOrphan(u))
    ensures Ownership(Next(c, s, RegisterOrphan(u)))
  {
    hide Typed, Registered, Held, SessionsOk;
    SessionsWith(s.sess, s.nextGen, NewSession(u, true));
    NewcomerIsRegistered(s, u, true);
    OrphanHoldsNothing(s, s.handlers, u);
    OrphanHoldsNothing(s, s.bouncers, u);
  }

  lemma OrphanHoldsNothing(s: State, held: map<Uuid, Gen>, u: Uuid)
    requires Typed(s.sess, s.nextGen, s.registry) && Held(s.sess, held)
    ensures Held(s.sess[s.nextGen := NewSession(u, true)], held)
  {
  }

  lemma NewcomerIsRegistered(s: State, u: Uuid, orphan: bool)
    requires Typed(s.sess, s.nextGen, s.registry) && Registered(s.sess, s.registry) && u != NIL && u !in s.registry
    ensures var sess, registry := s.sess[s.nextGen := NewSession(u, orphan)], s.registry[u := s.nextGen];
            Typed(sess, s.nextGen + 1, registry) && Registered(sess, registry)
  {
  }

  lemma NewcomerHolds(s: State, held: map<Uuid, Gen>, u: Uuid)
    requires Typed(s.sess, s.nextGen, s.registry) && Registered(s.sess, s.registry) && Held(s.sess, held)
             && u !in s.registry
    ensures Held(s.sess[s.nextGen := NewSession(u, false)], held[u := s.nextGen])
  {
  }

  lemma ReleaseKeepsOwnership(c: Codec, s: State, g: Gen)
    requires Ownership(s) && Enabled(c, s, Release(g))
    ensures Ownership(Next(c, s, Release(g)))
  {
    hide Typed, Registered, Held, SessionsOk;
    SessionFacts(s, g);
    var x := s.sess[g].(phase := RELEASED);
    SessionsWith(s.sess, g, x);
    PhaseKeepsRegistered(s.sess, s.nextGen, s.registry, g, x);
    ReleaseLetsGo(s.sess, s.handlers, g);
    ReleaseLetsGo(s.sess, s.bouncers, g);
  }

  lemma PhaseKeepsRegistered(sess: Sessions, nextGen: Gen, registry: map<Uuid, Gen>, g: Gen, x: Session)
    requires Typed(sess, nextGen, registry) && Registered(sess, registry) && g in sess
    requires x.uuid == sess[g].uuid && (x.phase < UNREGISTERED <==> sess[g].phase < UNREGISTERED)
    ensures Typed(sess[g := x], nextGen, registry) && Registered(sess[g := x], registry)
  {
  }

  lemma ReleaseLetsGo(sess: Sessions, held: map<Uuid, Gen>, g: Gen)
    requires Held(sess, held) && g in sess && sess[g].phase < RELEASED
    ensures Held(sess[g := sess[g].(phase := RELEASED)],
                 Without(held, sess[g].uuid, if sess[g].orphan then None else Some(g)))
  {
  }

  lemma UnregisterKeepsOwnership(c: Codec, s: State, g: Gen)
    requires Ownership(s) && Enabled(c, s, Unregister(g))
    ensures Ownership(Next(c, s, Unregister(g)))
  {
    hide Typed, Registered, Held, SessionsOk;
    SessionFacts(s, g);
    var x := s.sess[g].(phase := UNREGISTERED);
    SessionsWith(s.sess, g, x);
    UnregisterLetsGo(s, g);
    LaterPhaseKeepsHeld(s.sess, s.handlers, g, x);
    LaterPhaseKeepsHeld(s.sess, s.bouncers, g, x);
  }

  lemma UnregisterLetsGo(s: State, g: Gen)
    requires Typed(s.sess, s.nextGen, s.registry) && Registered(s.sess, s.registry)
    requires g in s.sess && s.sess[g].phase < UNREGISTERED
    ensures var sess, registry := s.sess[g := s.sess[g].(phase := UNREGISTERED)],
            Without(s.registry, s.sess[g].uuid, Some(g));
            Typed(sess, s.nextGen, registry) && Registered(sess, registry)
  {
  }

  lemma LaterPhaseKeepsHeld(sess: Sessions, held: map<Uuid, Gen>, g: Gen, x: Session)
    requires Held(sess, held) && g in sess && x.uuid == sess[g].uuid && x.orphan == sess[g].orphan
    requires sess[g].phase >= RELEASED && x.phase >= RELEASED
    ensures Held(sess[g := x], held)
  {
  }

  lemma FreeSourceSevers(s: State)
    requires Ownership(s) && FreesSource(s)
    ensures var g := s.registry[s.mixer[0].u];
            SessionOk(g, s.sess[g].(phase := SEVERED)) && Replaces(s.sess[g].(phase := SEVERED), s.sess[g])
  {
    SessionFacts(s, s.registry[s.mixer[0].u]);
  }

  lemma NextKeepsOwnership(c: Codec, s: State, e: Step)
    requires Ownership(s) && Enabled(c, s, e)
    ensures Ownership(Next(c, s, e))
  {
    hide Typed, Registered, Held, SessionsOk, SessionOk;
    match e
    case Admit(u, waited) => AdmitKeepsOwnership(c, s, u, waited);
    case RegisterOrphan(u) => OrphanKeepsOwnership(c, s, u);
    case Release(g) => ReleaseKeepsOwnership(c, s, g);
    case Unregister(g) => UnregisterKeepsOwnership(c, s, g);
    case SweepPolicy(_, _) =>
    case Drain =>
    case MixerStep =>
      if FreesSource(s) {
        FreeSourceSevers(s);
        var g := s.registry[s.mixer[0].u];
        ReplaceKeepsMaps(s, g, s.sess[g].(phase := SEVERED));
      }
    case _ =>
      LocalStep(c, s, e);
      hide Next;
      ReplaceKeepsMaps(s, e.g, Next(c, s, e).sess[e.g]);
  }

  // ------------------------------------------------------------------ the ownership theorems

  /** At most one entry per uuid is live. */
  lemma AtMostOneLive(s: State, g: Gen, h: Gen)
    requires Ownership(s) && InPhase(s, g, LIVE) && InPhase(s, h, LIVE) && s.sess[g].uuid == s.sess[h].uuid
    ensures g == h
  {
    assert Registered(s.sess, s.registry);
  }

  /** From the moment admission returns until the session's own departure begins, all three maps are its own. */
  lemma LiveSessionOwnsItsMaps(s: State, g: Gen)
    requires Ownership(s) && InPhase(s, g, LIVE) && !s.sess[g].orphan
    ensures var u := s.sess[g].uuid;
            Lookup(s.registry, u) == Lookup(s.handlers, u) == Lookup(s.bouncers, u) == Some(g)
  {
    assert Registered(s.sess, s.registry) && Held(s.sess, s.handlers) && Held(s.sess, s.bouncers);
  }

  /** A step begins a departure of g: the entry-carried triggers, or FreeSource. */
  predicate Severs(s: State, e: Step, g: Gen) {
    e == Begin(g) || (e == MixerStep && FreesSource(s) && s.registry[s.mixer[0].u] == g)
  }

  /** No step of an older generation, of another session or of the dispatcher ends a live session. */
  lemma OnlyItsOwnDepartureEndsASession(c: Codec, s: State, e: Step, g: Gen)
    requires Ownership(s) && Enabled(c, s, e) && InPhase(s, g, LIVE) && !Severs(s, e, g)
    ensures InPhase(Next(c, s, e), g, LIVE)
  {
    if !IsLocal(e) {
      OtherStepKeepsLive(c, s, e, g);
    } else if e.g == g {
      OwnStepKeepsLive(c, s, e);
    } else {
      LocalStep(c, s, e);
      SomeoneElseChanged(s.sess, Next(c, s, e).sess, e.g, g);
      hide Next, Enabled, Ownership, IsLocal, Severs;
    }
  }

  lemma SomeoneElseChanged(before: Sessions, after: Sessions, h: Gen, g: Gen)
    requires g in before && h in after && after == before[h := after[h]] && h != g
    ensures g in after && after[g] == before[g]
  {
  }

  lemma OwnStepKeepsLive(c: Codec, s: State, e: Step)
    requires IsLocal(e) && InPhase(s, e.g, LIVE) && Enabled(c, s, e) && !e.Begin?
    ensures InPhase(Next(c, s, e), e.g, LIVE)
  {
    hide IsSweep, AllOwned, SlotsOf, KeysOf, IsMarker;
  }

  lemma OtherStepKeepsLive(c: Codec, s: State, e: Step, g: Gen)
    requires Ownership(s) && !IsLocal(e) && InPhase(s, g, LIVE) && Enabled(c, s, e) && !Severs(s, e, g)
    ensures InPhase(Next(c, s, e), g, LIVE)
  {
    assert g < s.nextGen by { assert Typed(s.sess, s.nextGen, s.registry); }
    OtherStep(c, s, e);
    TouchedMovesOn(c, s, e);
    hide Ownership, Enabled, Next, IsLocal;
  }

  /** The one session a step that is not local adds or moves on. */
  function Touched(s: State, e: Step): Option<(Gen, Session)> {
    match e
    case Admit(u, _) => Some((s.nextGen, NewSession(u, false)))
    case RegisterOrphan(u) => Some((s.nextGen, NewSession(u, true)))
    case Release(g) => if g in s.sess then Some((g, s.sess[g].(phase := RELEASED))) else None
    case Unregister(g) => if g in s.sess then Some((g, s.sess[g].(phase := UNREGISTERED))) else None
    case MixerStep =>
      if FreesSource(s) then Some((s.registry[s.mixer[0].u], s.sess[s.registry[s.mixer[0].u]].(phase := SEVERED)))
      else None
    case _ => None
  }

  function WithTouched(sess: Sessions, touched: Option<(Gen, Session)>): Sessions {
    match touched
    case None => sess
    case Some(gx) => sess[gx.0 := gx.1]
  }

  lemma OtherStep(c: Codec, s: State, e: Step)
    requires Enabled(c, s, e) && !IsLocal(e)
    ensures Next(c, s, e).sess == WithTouched(s.sess, Touched(s, e))
    ensures Next(c, s, e).log == (if e.SweepPolicy? then s.log + [Msg(FromSystem, NIL, e.topic, e.ops)] else s.log)
  {
    if e.MixerStep? { MixerTouches(c, s); } else { NonMixerStep(c, s, e); }
  }

  lemma MixerTouches(c: Codec, s: State)
    requires Enabled(c, s, MixerStep)
    ensures Next(c, s, MixerStep).sess == WithTouched(s.sess, Touched(s, MixerStep))
            && Next(c, s, MixerStep).log == s.log
  {
    hide Track;
  }

  lemma NonMixerStep(c: Codec, s: State, e: Step)
    requires Enabled(c, s, e) && !IsLocal(e) && !e.MixerStep?
    ensures Next(c, s, e).sess == WithTouched(s.sess, Touched(s, e))
    ensures Next(c, s, e).log == (if e.SweepPolicy? then s.log + [Msg(FromSystem, NIL, e.topic, e.ops)] else s.log)
  {
    hide Track, IsSweep, AllOwned, SlotsOf, KeysOf, IsMarker, OnBouncer, DoomedBy, AreTombstones, ClassifyKey, Without,
         FreesSource;
  }

  /** A touched session is new, or it moves to a later phase and nothing else about it changes. */
  lemma TouchedMovesOn(c: Codec, s: State, e: Step)
    requires Enabled(c, s, e) && !IsLocal(e)
    ensures Touched(s, e).Some? ==>
              !e.SweepPolicy? &&
              var (g, x) := Touched(s, e).value;
              if g in s.sess && !e.Admit? && !e.RegisterOrphan? then
                && x == s.sess[g].(phase := x.phase) && s.sess[g].phase < x.phase
                && (x.phase < ANNOUNCING || s.sess[g].phase >= REMOVED)
                && (s.sess[g].phase == LIVE ==> Severs(s, e, g))
              else g == s.nextGen && x == NewSession(x.uuid, x.orphan) && (x.orphan || (e.Admit? && x.uuid == e.u))
  {
  }
}
