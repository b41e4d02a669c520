/**
 * One producer and one consumer of the jitter buffer, interleaved store by store and load by load.
 *
 * Positions are counted in samples: sample p lives in slot p % (capacity * nc), which is channel p % nc
 * of frame p / nc. A Write stores the samples of its batch one at a time, in any order, and publishes
 * writePos after the last; a Read loads writePos once and then the samples its plan touches, in any order.
 */
module JitterRace {
  import opened Common
  import opened RingArithmetic
  import opened JitterReader

  /** What a slot holds, with the position it was stored for as a label; -1 before the first store. */
  datatype Sample = Sample(at: int, value: real)

  /** A Read in progress: the write position it loaded, its plan, and every sample it has loaded. */
  datatype Reading = Reading(loadedWp: int, plan: Plan, n: nat, got: map<int, Sample>)

  datatype State = State(
    ring: seq<Sample>,
    stream: seq<real>,      // every published sample
    batch: seq<real>,       // the samples of the Write in progress
    stored: set<int>,       // positions of the batch already stored
    wp: int,                // writePos, in frames
    r: Reader,
    reading: Option<Reading>)

  datatype Event =
    | BeginWrite(samples: seq<real>)
    | Store(at: int)
    | Publish
    | BeginRead(n: nat)
    | Load(from: int)
    | EndRead

  function Slots(g: Geometry): int { g.capacity * g.nc }

  /** How far past the loaded write position the producer may store while the Read runs. */
  function Slack(g: Geometry): int { g.capacity - OverrunAt(g, g.lMax, g.hMax) }

  /** Sample p has been put into its slot, published or not. */
  predicate IsStored(s: State, p: int) { 0 <= p < |s.stream| || p in s.stored }

  /** The producer is still inside the slack of the Read under way. */
  ghost predicate InTime(g: Geometry, s: State) {
    s.reading.Some? ==> forall q :: IsStored(s, q) ==> q < (s.reading.value.loadedWp + Slack(g)) * g.nc
  }

  predicate Enabled(g: Geometry, s: State, e: Event) {
    match e
    case BeginWrite(src) => s.batch == [] && 0 < |src| <= Slots(g) && |src| % g.nc == 0
    case Store(p) => |s.stream| <= p < |s.stream| + |s.batch| && p !in s.stored
    case Publish => s.batch != [] && forall p :: |s.stream| <= p < |s.stream| + |s.batch| ==> p in s.stored
    case BeginRead(n) => s.reading.None? && n > 0
    case Load(p) =>
      && s.reading.Some? && s.reading.value.plan.Audible()
      && s.reading.value.plan.start * g.nc <= p < TouchedEnd(s.reading.value.plan, s.reading.value.n) * g.nc
    case EndRead => s.reading.Some? && Complete(g, s.reading.value)
  }

  /** Every sample the plan touches has been loaded. */
  predicate Complete(g: Geometry, x: Reading) {
    x.plan.Audible() ==>
      forall p {:trigger p in x.got} :: x.plan.start * g.nc <= p < TouchedEnd(x.plan, x.n) * g.nc ==> p in x.got
  }

  function Next(g: Geometry, s: State, e: Event): State
    requires WellFormed(g) && |s.ring| == Slots(g) && Slots(g) > 0 && Enabled(g, s, e)
  {
    match e
    case BeginWrite(src) => s.(batch := src, stored := {})
    case Store(p) =>
      s.(ring := s.ring[p % |s.ring| := Sample(p, s.batch[p - |s.stream|])], stored := s.stored + {p})
    case Publish =>
      s.(stream := s.stream + s.batch, wp := s.wp + |s.batch| / g.nc, batch := [], stored := {})
    case BeginRead(n) => s.(reading := Some(Reading(s.wp, PlanOf(g, s.r, s.wp, n), n, map[])))
    case Load(p) =>
      s.(reading := Some(s.reading.value.(got := s.reading.value.got[p := s.ring[p % |s.ring|]])))
    case EndRead =>
      s.(r := ReadStep(g, s.r, s.reading.value.loadedWp, s.reading.value.n), reading := None)
  }

  // ------------------------------------------------------------------ invariant

  /** The sample stored at p. */
  function ValueAt(s: State, p: int): real
    requires 0 <= p < |s.stream| + |s.batch|
  {
    if p < |s.stream| then s.stream[p] else s.batch[p - |s.stream|]
  }

  /** A slot holds the sample last stored there: p until p plus one ring is stored. */
  ghost predicate RingOk(s: State)
    requires |s.ring| > 0
  {
    && (forall p :: p in s.stored ==> |s.stream| <= p < |s.stream| + |s.batch|)
    && (forall p :: IsStored(s, p) && !IsStored(s, p + |s.ring|) ==> s.ring[p % |s.ring|] == Sample(p, ValueAt(s, p)))
  }

  ghost predicate HeadsOk(g: Geometry, s: State) {
    && |s.ring| == Slots(g) && Slots(g) > 0 && |s.stream| == s.wp * g.nc
    && |s.batch| <= |s.ring| && |s.batch| % g.nc == 0 && (s.batch == [] ==> s.stored == {})
    && ReaderOk(g, s.r) && 0 <= s.r.rp <= s.wp
  }

  ghost predicate ReadingOk(g: Geometry, s: State) {
    s.reading.Some? ==>
      var x := s.reading.value;
      && x.n > 0 && s.r.rp <= x.loadedWp <= s.wp && x.plan == PlanOf(g, s.r, x.loadedWp, x.n)
  }

  ghost predicate Inv(g: Geometry, s: State) {
    WellFormed(g) && HeadsOk(g, s) && RingOk(s) && ReadingOk(g, s)
  }

  function Init(g: Geometry, ring: seq<Sample>, l: int, h: int): State {
    State(ring, [], [], {}, 0, InitReader(l, h), None)
  }

  lemma InitInv(g: Geometry, ring: seq<Sample>, l: int, h: int)
    requires WellFormed(g) && InBounds(g, l, h) && |ring| == Slots(g)
    ensures Inv(g, Init(g, ring, l, h))
  {
    MulMono(1, g.capacity, g.nc);
    DivModUnique(0, 0, 0, g.nc);
  }

  /** A position not yet followed by the one a ring later does not share its slot with the position being stored. */
  lemma OtherSlot(s: State, p: int, q: int)
    requires |s.ring| > 0 && |s.batch| <= |s.ring| && |s.stream| <= p < |s.stream| + |s.batch|
    requires 0 <= q < |s.stream| + |s.batch| && q != p && q + |s.ring| != p && !IsStored(s, q + |s.ring|)
    ensures q % |s.ring| != p % |s.ring|
  {
    var c := |s.ring|;
    if p < q {
      Distinct(p, q, c);
    } else if p - c < q {
      Distinct(q, p, c);
    } else {
      Distinct(q + c, p, c);
      PreviousPass(q + c, c);
    }
  }

  lemma StoreKeepsRing(g: Geometry, s: State, p: int)
    requires Inv(g, s) && Enabled(g, s, Store(p))
    ensures RingOk(Next(g, s, Store(p)))
  {
    var t, c := Next(g, s, Store(p)), |s.ring|;
    hide MakePlan, ReadingOk, WellFormed, ReaderOk;
    forall q | IsStored(t, q) && !IsStored(t, q + c)
      ensures t.ring[q % c] == Sample(q, ValueAt(t, q))
    {
      if q != p {
        assert IsStored(s, q) && !IsStored(s, q + c);
        OtherSlot(s, p, q);
      }
    }
  }

  lemma PublishKeepsRing(g: Geometry, s: State)
    requires Inv(g, s) && Enabled(g, s, Publish)
    ensures RingOk(Next(g, s, Publish))
  {
    var t := Next(g, s, Publish);
    assert forall p :: IsStored(t, p) <==> IsStored(s, p);
    assert forall p :: IsStored(t, p) ==> ValueAt(t, p) == ValueAt(s, p);
  }

  lemma WholeFrames(wp: int, samples: nat, nc: int)
    requires nc > 0 && samples % nc == 0
    ensures (wp + samples / nc) * nc == wp * nc + samples && samples / nc >= 0
  {
    var frames := samples / nc;
    assert samples == frames * nc;
    assert (wp + frames) * nc == wp * nc + frames * nc;
  }

  lemma PublishKeepsHeads(g: Geometry, s: State)
    requires Inv(g, s) && Enabled(g, s, Publish)
    ensures HeadsOk(g, Next(g, s, Publish))
  {
    hide MakePlan, ReadingOk;
    WholeFrames(s.wp, |s.batch|, g.nc);
    DivModUnique(0, 0, 0, g.nc);
  }

  lemma Window(nc: int, limit: int, capacity: int, loaded: int, start: int, end: int, wp: int, p: int)
    requires nc > 0 && 0 <= start && loaded - limit <= start && end <= wp && start * nc <= p < end * nc
    ensures 0 <= p < wp * nc && (loaded + (capacity - limit)) * nc <= p + capacity * nc
  {
    MulMono(0, start, nc);
    MulMono(end, wp, nc);
    MulMono(loaded - limit, start, nc);
    assert (loaded + (capacity - limit)) * nc == (loaded - limit) * nc + capacity * nc;
  }

  /** What a plan touches has been published, and while the producer is in time it is still in its slot. */
  lemma TouchedSampleIsHeld(g: Geometry, s: State, p: int)
    requires Inv(g, s) && Enabled(g, s, Load(p))
    ensures 0 <= p < |s.stream| && (InTime(g, s) ==> !IsStored(s, p + |s.ring|))
  {
    var x, limit := s.reading.value, OverrunAt(g, g.lMax, g.hMax);
    PlanIsSafe(g, s.r.rp, x.loadedWp, s.r.l, s.r.h, x.n);
    LevelsAreOrdered(g, s.r.l, s.r.h);
    Window(g.nc, limit, g.capacity, x.loadedWp, x.plan.start, TouchedEnd(x.plan, x.n), s.wp, p);
  }

  /** The last position stored for the slot of p. */
  lemma Latest(s: State, p: int) returns (q: int)
    requires |s.ring| > 0 && RingOk(s) && IsStored(s, p)
    ensures p <= q && q % |s.ring| == p % |s.ring| && IsStored(s, q) && !IsStored(s, q + |s.ring|)
    decreases |s.stream| + |s.batch| - p
  {
    if IsStored(s, p + |s.ring|) {
      PreviousPass(p + |s.ring|, |s.ring|);
      q := Latest(s, p + |s.ring|);
    } else {
      q := p;
    }
  }

  /** The exact condition: a published sample is in its slot if and only if the one a ring later is not stored yet. */
  lemma HeldExactly(g: Geometry, s: State, p: int)
    requires Inv(g, s) && 0 <= p < |s.stream|
    ensures s.ring[p % |s.ring|] == Sample(p, s.stream[p]) <==> !IsStored(s, p + |s.ring|)
  {
    assert IsStored(s, p);
    var q := Latest(s, p);
    assert s.ring[q % |s.ring|] == Sample(q, ValueAt(s, q));
  }

  lemma NextKeepsRing(g: Geometry, s: State, e: Event)
    requires Inv(g, s) && Enabled(g, s, e)
    ensures RingOk(Next(g, s, e))
  {
    match e
    case BeginWrite(src) => BeginKeepsRing(g, s, src);
    case Store(p) => StoreKeepsRing(g, s, p);
    case Publish => PublishKeepsRing(g, s);
    case _ =>
      hide RingOk, Enabled, ReadStep, MakePlan;
      SameRing(s, Next(g, s, e));
  }

  lemma NextKeepsHeads(g: Geometry, s: State, e: Event)
    requires Inv(g, s) && Enabled(g, s, e)
    ensures HeadsOk(g, Next(g, s, e))
  {
    hide MakePlan, RingOk, ReadStep, WellFormed;
    match e
    case Publish => PublishKeepsHeads(g, s);
    case EndRead => ReadStepKeepsReader(g, s.r, s.reading.value.loadedWp, s.reading.value.n);
    case _ =>
  }

  lemma NextKeepsReading(g: Geometry, s: State, e: Event)
    requires Inv(g, s) && Enabled(g, s, e)
    ensures ReadingOk(g, Next(g, s, e))
  {
    hide MakePlan, RingOk, ReadStep;
    if e.Publish? { WholeFrames(s.wp, |s.batch|, g.nc); }
  }

  lemma NextKeepsInv(g: Geometry, s: State, e: Event)
    requires Inv(g, s) && Enabled(g, s, e)
    ensures Inv(g, Next(g, s, e)) && s.stream <= Next(g, s, e).stream
  {
    NextKeepsRing(g, s, e);
    NextKeepsHeads(g, s, e);
    NextKeepsReading(g, s, e);
    hide RingOk, HeadsOk, ReadingOk, Enabled, WellFormed;
  }

  lemma SameRing(s: State, t: State)
    requires |s.ring| > 0 && RingOk(s)
    requires t.ring == s.ring && t.stream == s.stream && t.batch == s.batch && t.stored == s.stored
    ensures RingOk(t)
  {
    assert forall p :: IsStored(t, p) <==> IsStored(s, p);
    assert forall p :: IsStored(t, p) ==> ValueAt(t, p) == ValueAt(s, p);
  }

  lemma BeginKeepsRing(g: Geometry, s: State, src: seq<real>)
    requires Inv(g, s) && Enabled(g, s, BeginWrite(src))
    ensures RingOk(Next(g, s, BeginWrite(src)))
    ensures |src| <= |s.ring| && |src| % g.nc == 0
  {
    var t := Next(g, s, BeginWrite(src));
    assert forall p :: IsStored(t, p) <==> IsStored(s, p);
    assert forall p :: IsStored(t, p) ==> ValueAt(t, p) == ValueAt(s, p);
  }

  // ------------------------------------------------------------------ every interleaving

  ghost predicate Trace(g: Geometry, states: seq<State>, events: seq<Event>) {
    && WellFormed(g) && |states| == |events| + 1
    && (exists ring, l, h :: |ring| == Slots(g) && InBounds(g, l, h) && states[0] == Init(g, ring, l, h))
    && forall i {:trigger events[i]} :: 0 <= i < |events| ==> IsStep(g, states[i], events[i], states[i + 1])
  }

  ghost predicate IsStep(g: Geometry, s: State, e: Event, t: State)
    requires WellFormed(g)
  {
    |s.ring| == Slots(g) && Slots(g) > 0 && Enabled(g, s, e) && t == Next(g, s, e)
  }

  lemma {:induction false} TraceKeepsInv(g: Geometry, states: seq<State>, events: seq<Event>, i: nat)
    requires Trace(g, states, events) && i < |states|
    ensures Inv(g, states[i])
  {
    if i == 0 {
      var ring, l, h :| |ring| == Slots(g) && InBounds(g, l, h) && states[0] == Init(g, ring, l, h);
      InitInv(g, ring, l, h);
    } else {
      TraceKeepsInv(g, states, events, i - 1);
      assert IsStep(g, states[i - 1], events[i - 1], states[i]);
      NextKeepsInv(g, states[i - 1], events[i - 1]);
    }
  }

  /** Every load so far came before the producer had stored the sample one ring later. */
  ghost predicate LoadsInTime(states: seq<State>, events: seq<Event>, n: nat)
    requires n <= |events| <= |states|
  {
    forall i :: 0 <= i < n && events[i].Load? ==> !IsStored(states[i], events[i].from + |states[i].ring|)
  }

  /** Everything the Read under way has loaded is the stream's sample at that position. */
  ghost predicate Untorn(s: State) {
    s.reading.Some? ==>
      forall p :: p in s.reading.value.got ==> 0 <= p < |s.stream| && s.reading.value.got[p] == Sample(p, s.stream[p])
  }

  /** In every interleaving a load yields the sample appended at its position exactly when it comes in time. */
  lemma LoadIsRightExactly(g: Geometry, states: seq<State>, events: seq<Event>, i: nat)
    requires Trace(g, states, events) && i < |events| && events[i].Load?
    ensures var s, p := states[i], events[i].from;
            && 0 <= p < |s.stream| && s.stream == states[i + 1].stream
            && states[i + 1].reading.Some? && p in states[i + 1].reading.value.got
            && (states[i + 1].reading.value.got[p] == Sample(p, s.stream[p]) <==> !IsStored(s, p + |s.ring|))
  {
    TraceKeepsInv(g, states, events, i);
    assert IsStep(g, states[i], events[i], states[i + 1]);
    TouchedSampleIsHeld(g, states[i], events[i].from);
    HeldExactly(g, states[i], events[i].from);
  }

  /** In every interleaving whose loads are in time no Read is torn or lapped, the splice's extra sample included. */
  lemma {:induction false} NoReadIsTorn(g: Geometry, states: seq<State>, events: seq<Event>, i: nat)
    requires Trace(g, states, events) && i <= |events| && LoadsInTime(states, events, i)
    ensures Untorn(states[i])
  {
    hide Inv, Untorn, Enabled, Next, IsStored, Trace, IsStep;
    TraceLength(g, states, events);
    if i > 0 {
      NoReadIsTorn(g, states, events, i - 1);
      StepOf(g, states, events, i - 1);
      StepKeepsUntorn(g, states[i - 1], events[i - 1]);
    } else {
      BeginsUntorn(g, states, events);
    }
  }

  lemma TraceLength(g: Geometry, states: seq<State>, events: seq<Event>)
    requires Trace(g, states, events)
    ensures |states| == |events| + 1
  {
  }

  lemma StepOf(g: Geometry, states: seq<State>, events: seq<Event>, i: nat)
    requires Trace(g, states, events) && i < |events|
    ensures Inv(g, states[i]) && IsStep(g, states[i], events[i], states[i + 1])
    ensures Enabled(g, states[i], events[i]) && states[i + 1] == Next(g, states[i], events[i])
  {
    TraceKeepsInv(g, states, events, i);
    hide Inv, Enabled, Next;
  }

  lemma BeginsUntorn(g: Geometry, states: seq<State>, events: seq<Event>)
    requires Trace(g, states, events)
    ensures Untorn(states[0])
  {
  }

  lemma StepKeepsUntorn(g: Geometry, s: State, e: Event)
    requires Inv(g, s) && Enabled(g, s, e) && Untorn(s) && (e.Load? ==> !IsStored(s, e.from + |s.ring|))
    ensures Untorn(Next(g, s, e))
  {
    NextKeepsInv(g, s, e);
    if e.Load? {
      TouchedSampleIsHeld(g, s, e.from);
      HeldExactly(g, s, e.from);
    }
    hide RingOk, HeadsOk, ReadingOk, IsStored, ReadStep, MakePlan;
  }

  /** A producer at most Slack frames past the write position each Read loaded makes every load in time. */
  lemma SlackIsEnough(g: Geometry, states: seq<State>, events: seq<Event>, n: nat)
    requires Trace(g, states, events) && n <= |events|
    requires forall i :: 0 <= i < n && events[i].Load? ==> InTime(g, states[i])
    ensures LoadsInTime(states, events, n)
  {
    hide Trace, InTime, IsStored;
    TraceLength(g, states, events);
    forall i | 0 <= i < n && events[i].Load?
      ensures !IsStored(states[i], events[i].from + |states[i].ring|)
    {
      InTimeAt(g, states, events, i);
    }
  }

  lemma InTimeAt(g: Geometry, states: seq<State>, events: seq<Event>, i: nat)
    requires Trace(g, states, events) && i < |events| && events[i].Load? && InTime(g, states[i])
    ensures !IsStored(states[i], events[i].from + |states[i].ring|)
  {
    hide Inv, InTime, IsStored, Trace;
    TraceLength(g, states, events);
    StepOf(g, states, events, i);
    TouchedSampleIsHeld(g, states[i], events[i].from);
  }

  /** And no smaller ring will do: at the widest band and the fullest buffer one sample past the slack spoils a load. */
  lemma PastTheSlackSpoilsALoad(g: Geometry, s: State)
    requires Inv(g, s) && s.reading.Some? && s.r.l == g.lMax && s.r.h == g.hMax
    requires var x := s.reading.value; x.loadedWp - s.r.rp == OverrunAt(g, g.lMax, g.hMax) >= x.n && s.r.rp > 0
    requires IsStored(s, (s.reading.value.loadedWp + Slack(g)) * g.nc)
    ensures var p := s.reading.value.plan.start * g.nc;
            && Enabled(g, s, Load(p)) && 0 <= p < |s.stream|
            && Next(g, s, Load(p)).reading.value.got[p] != Sample(p, s.stream[p])
  {
    var x := s.reading.value;
    LevelsAreOrdered(g, s.r.l, s.r.h);
    PlanIsSafe(g, s.r.rp, x.loadedWp, s.r.l, s.r.h, x.n);
    assert x.plan.start == s.r.rp && x.plan.Audible();
    hide Inv, IsStored, MakePlan;
    OneRingOn(s.r.rp, x.loadedWp, OverrunAt(g, g.lMax, g.hMax), g.capacity, TouchedEnd(x.plan, x.n), g.nc);
    SpoiledLoad(g, s, s.r.rp * g.nc);
  }

  lemma OneRingOn(rp: int, loaded: int, limit: int, capacity: int, end: int, nc: int)
    requires loaded - rp == limit && rp < end && nc > 0
    ensures (loaded + (capacity - limit)) * nc == rp * nc + capacity * nc && rp * nc < end * nc
  {
    MulMono(rp + 1, end, nc);
    assert (rp + capacity) * nc == rp * nc + capacity * nc && (rp + 1) * nc == rp * nc + nc;
  }

  lemma SpoiledLoad(g: Geometry, s: State, p: int)
    requires Inv(g, s) && Enabled(g, s, Load(p)) && IsStored(s, p + |s.ring|)
    ensures 0 <= p < |s.stream| && Next(g, s, Load(p)).reading.value.got[p] != Sample(p, s.stream[p])
  {
    TouchedSampleIsHeld(g, s, p);
    HeldExactly(g, s, p);
    hide Inv, IsStored;
  }

  /** So a Read whose loads were in time ends with exactly the stream under its plan. */
  lemma FinishedReadHasItsSlice(g: Geometry, states: seq<State>, events: seq<Event>, i: nat)
    requires Trace(g, states, events) && i < |events| && events[i] == EndRead
    requires states[i].reading.value.plan.Audible() && LoadsInTime(states, events, i)
    ensures var s, x := states[i], states[i].reading.value;
            && 0 <= x.plan.start * g.nc && TouchedEnd(x.plan, x.n) * g.nc <= |s.stream|
            && forall p :: x.plan.start * g.nc <= p < TouchedEnd(x.plan, x.n) * g.nc ==>
                 p in x.got && x.got[p] == Sample(p, s.stream[p])
  {
    TraceKeepsInv(g, states, events, i);
    NoReadIsTorn(g, states, events, i);
    assert IsStep(g, states[i], events[i], states[i + 1]);
    var s, x := states[i], states[i].reading.value;
    PlanIsSafe(g, s.r.rp, x.loadedWp, s.r.l, s.r.h, x.n);
    MulMono(0, x.plan.start, g.nc);
    MulMono(TouchedEnd(x.plan, x.n), s.wp, g.nc);
  }
}
