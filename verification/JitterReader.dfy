/**
 * The pure core of the jitter buffer: geometry, the decision one Read takes, and the
 * read-counted controller that moves the two allowances.
 */
module JitterReader {
  import opened Common
  import opened RingArithmetic

  const NANOS_PER_SECOND := 1_000_000_000
  const NANOS_PER_MILLI := 1_000_000
  const WINDOW_READS := 400
  const WIDEN_THRESHOLD := 5

  /** Durations are nanoseconds; a zero field means "use the default". */
  datatype Config = Config(
    sampleRate: int, numChannels: int,
    writerFrame: int, readerFrame: int, safety: int,
    lowInit: int, lowMin: int, lowMax: int,
    highInit: int, highMin: int, highMax: int)

  datatype Geometry = Geometry(
    capacity: int, floor: int, w: int, nc: int,
    lMin: int, lMax: int, hMin: int, hMax: int,
    windowReads: int, widenThreshold: int, widenStep: int, narrowStep: int)

  datatype Built = Built(g: Geometry, lInit: int, hInit: int)

  function Default(v: int, d: int): int { if v == 0 then d else v }

  function DurToFrames(d: int, sr: int): int { GoDiv(d * sr, NANOS_PER_SECOND) }

  /** NewJitterBuffer; None stands for its panics, including make() with a negative length. */
  function NewGeometry(cfg: Config): Option<Built> {
    var sr := Default(cfg.sampleRate, 48000);
    var nc := Default(cfg.numChannels, 1);
    var wDur := Default(cfg.writerFrame, 20 * NANOS_PER_MILLI);
    var w := DurToFrames(wDur, sr);
    var r := DurToFrames(Default(cfg.readerFrame, 5 * NANOS_PER_MILLI), sr);
    var s := DurToFrames(Default(cfg.safety, 1 * NANOS_PER_MILLI), sr);
    var lInit := DurToFrames(Default(cfg.lowInit, 5 * NANOS_PER_MILLI), sr);
    var lMin := DurToFrames(Default(cfg.lowMin, 2 * NANOS_PER_MILLI), sr);
    var lMax := DurToFrames(Default(cfg.lowMax, 30 * NANOS_PER_MILLI), sr);
    var hInit := DurToFrames(Default(cfg.highInit, wDur), sr);
    var hMin := DurToFrames(Default(cfg.highMin, wDur), sr);
    var hMax := DurToFrames(Default(cfg.highMax, 3 * wDur), sr);
    if r <= 0 || w <= 0 || s < 0 then None
    else if !(0 <= lMin <= lInit <= lMax) || !(0 <= hMin <= hInit <= hMax) then None
    else if nc < 0 then None
    else
      var bandTopMax := r + s + lMax + 2 * w + hMax;
      Some(Built(
        Geometry(2 * bandTopMax + 2 * Max(w, r), r + s, w, nc, lMin, lMax, hMin, hMax,
                 WINDOW_READS, WIDEN_THRESHOLD,
                 DurToFrames(2 * NANOS_PER_MILLI, sr), GoDiv(sr * 500, 1_000_000)),
        lInit, hInit))
  }

  predicate WellFormed(g: Geometry) {
    && 0 < g.floor && 0 < g.w && 0 < g.nc
    && 0 <= g.lMin <= g.lMax && 0 <= g.hMin <= g.hMax
    && g.capacity >= 2 * (g.floor + g.lMax + 2 * g.w + g.hMax) + 2 * g.w
    && 0 < g.windowReads && 0 < g.widenThreshold && 0 <= g.narrowStep <= g.widenStep
  }

  function SnapTarget(g: Geometry, l: int): int { g.floor + l + g.w }

  function DropLine(g: Geometry, l: int, h: int): int { g.floor + l + g.w + h }

  function OverrunAt(g: Geometry, l: int, h: int): int { g.floor + l + 2 * g.w + h }

  predicate InBounds(g: Geometry, l: int, h: int) { g.lMin <= l <= g.lMax && g.hMin <= h <= g.hMax }

  /**
   * An accepted configuration is usable exactly when its sample rate is above -500: the constructor
   * tests frame counts, and a negative rate with negative durations passes those tests while its
   * controller steps come out negative.
   */
  lemma AcceptedConfigIsWellFormed(cfg: Config)
    requires NewGeometry(cfg).Some?
    ensures var b := NewGeometry(cfg).value;
            && InBounds(b.g, b.lInit, b.hInit)
            && (WellFormed(b.g) <==> Default(cfg.sampleRate, 48000) > -500)
  {
    var sr := Default(cfg.sampleRate, 48000);
    assert GoDiv(2 * NANOS_PER_MILLI * sr, NANOS_PER_SECOND) ==
      if sr >= 0 then (2 * NANOS_PER_MILLI * sr) / NANOS_PER_SECOND
      else -((-(2 * NANOS_PER_MILLI * sr)) / NANOS_PER_SECOND);
  }

  /** Such a configuration exists: at a rate of -48000 with every duration negative. */
  lemma NegativeRateIsAccepted()
    ensures var ms := -NANOS_PER_MILLI;
            var cfg := Config(-48000, 1, 20 * ms, 5 * ms, ms, 5 * ms, 2 * ms, 30 * ms, 20 * ms, 20 * ms, 60 * ms);
            var b := NewGeometry(cfg);
            b.Some? && !WellFormed(b.value.g)
  {
  }

  /** A 48 kHz mono buffer with every duration left to its default, in frames. */
  lemma DefaultGeometry()
    ensures var b := NewGeometry(Config(0, 0, 0, 0, 0, 0, 0, 0, 0, 0, 0));
            && b == Some(Built(Geometry(14976, 288, 960, 1, 96, 1440, 960, 2880, 400, 5, 96, 24), 240, 960))
            && SnapTarget(b.value.g, 240) == 1488 && DropLine(b.value.g, 240, 960) == 2448
            && OverrunAt(b.value.g, 240, 960) == 3408
  {
  }

  /** floor < snapTarget <= dropLine < overrunAt < capacity, wherever the controller has moved L and H. */
  lemma LevelsAreOrdered(g: Geometry, l: int, h: int)
    requires WellFormed(g) && InBounds(g, l, h)
    ensures g.floor < SnapTarget(g, l) <= DropLine(g, l, h) < OverrunAt(g, l, h) < g.capacity
    ensures OverrunAt(g, l, h) <= OverrunAt(g, g.lMax, g.hMax)
    ensures g.capacity - OverrunAt(g, g.lMax, g.hMax) >= OverrunAt(g, g.lMax, g.hMax) + 2 * g.w
  {
  }

  // ---------------------------------------------------------------- the decision of one Read

  datatype Snap = NoSnap | StartupSnap | LapSnap | OverrunSnap

  datatype Action = Wait | Underrun | Plain | Drop | Insert

  /** What one Read decides from its single load of writePos: where it starts and what it does there. */
  datatype Plan = Plan(snap: Snap, start: int, action: Action) {
    predicate Audible() { action in {Plain, Drop, Insert} }

    function Consumed(n: nat): int {
      match action
      case Plain => n
      case Drop => n + 1
      case Insert => n - 1
      case _ => 0
    }
  }

  function ActionFor(g: Geometry, fill: int, l: int, h: int, n: nat): Action {
    if fill < n then Underrun
    else if fill > DropLine(g, l, h) && fill >= n + 1 then Drop
    else if fill < g.floor && n >= 2 then Insert
    else Plain
  }

  function MakePlan(g: Geometry, rp: int, wp: int, l: int, h: int, n: nat): Plan {
    if rp == 0 && wp < SnapTarget(g, l) then Plan(NoSnap, 0, Wait)
    else
      var start0 := if rp == 0 then wp - SnapTarget(g, l) else rp;
      var snap := if wp - start0 >= g.capacity then LapSnap
                  else if wp - start0 > OverrunAt(g, l, h) then OverrunSnap
                  else if rp == 0 then StartupSnap
                  else NoSnap;
      var start := if snap.LapSnap? || snap.OverrunSnap? then wp - SnapTarget(g, l) else start0;
      Plan(snap, start, ActionFor(g, wp - start, l, h, n))
  }

  /** The frames a plan touches, the splice's skipped or peeked frame included. */
  function TouchedEnd(p: Plan, n: nat): int
  {
    p.start + (if p.action.Drop? then n + 1 else if p.Audible() then n else 0)
  }

  /**
   * A plan stays inside what is stored: it starts no earlier than the overrun line allows, every frame
   * it touches has been published, and a Read that snaps never splices.
   */
  lemma PlanIsSafe(g: Geometry, rp: int, wp: int, l: int, h: int, n: nat)
    requires WellFormed(g) && InBounds(g, l, h) && 0 <= rp <= wp && n > 0
    ensures var p := MakePlan(g, rp, wp, l, h, n);
            && rp <= p.start && p.start + p.Consumed(n) <= wp
            && (p.Audible() ==> wp - OverrunAt(g, l, h) <= p.start && TouchedEnd(p, n) <= wp)
            && (p.action.Insert? ==> p.Consumed(n) >= 1)
            && (!p.snap.NoSnap? ==> wp - p.start == SnapTarget(g, l) && p.action in {Plain, Underrun})
  {
    LevelsAreOrdered(g, l, h);
  }

  /**
   * When a Read waits and when it snaps: it waits for the warm start until the target is there, a fill of a whole ring
   * is a lap, a fill above the overrun line an overrun, and each snap leaves exactly the target.
   */
  lemma SnapsExactly(g: Geometry, rp: int, wp: int, l: int, h: int, n: nat)
    requires WellFormed(g) && InBounds(g, l, h) && 0 <= rp <= wp
    ensures var p := MakePlan(g, rp, wp, l, h, n);
            && (p.action.Wait? <==> rp == 0 && wp < g.floor + l + g.w)
            && (rp > 0 ==>
                  && (p.snap.LapSnap? <==> wp - rp >= g.capacity)
                  && (p.snap.OverrunSnap? <==> g.floor + l + 2 * g.w + h < wp - rp < g.capacity)
                  && !p.snap.StartupSnap? && (p.snap.NoSnap? ==> p.start == rp))
            && (rp == 0 || !p.snap.NoSnap? ==> p.action.Wait? || wp - p.start == g.floor + l + g.w)
  {
    LevelsAreOrdered(g, l, h);
  }

  /**
   * Which way a correction goes, in frames taken off the buffer: with enough to play, a Read of n takes n + 1 exactly
   * above the band, n - 1 exactly below it, and n inside it; with too little it takes none.
   */
  lemma CorrectionGoesToTheBand(g: Geometry, rp: int, wp: int, l: int, h: int, n: nat)
    requires WellFormed(g) && InBounds(g, l, h) && 0 <= rp <= wp && n >= 2
    ensures var p := MakePlan(g, rp, wp, l, h, n);
            var fill, taken := wp - p.start, p.Consumed(n);
            && (p.action.Wait? || fill < n ==> taken == 0 && !p.Audible())
            && (!p.action.Wait? && fill >= n ==>
                  && p.Audible()
                  && (taken == n + 1 <==> fill > g.floor + l + g.w + h && fill >= n + 1)
                  && (taken == n - 1 <==> fill < g.floor)
                  && n - 1 <= taken <= n + 1)
  {
    LevelsAreOrdered(g, l, h);
  }

  /** A Read of one frame cannot be stretched; it still takes two above the band. */
  lemma OneFrameReads(g: Geometry, rp: int, wp: int, l: int, h: int)
    requires WellFormed(g) && InBounds(g, l, h) && 0 <= rp <= wp
    ensures var p := MakePlan(g, rp, wp, l, h, 1);
            var fill := wp - p.start;
            !p.action.Wait? && fill >= 1 ==>
              p.Consumed(1) == if fill > g.floor + l + g.w + h && fill >= 2 then 2 else 1
  {
    LevelsAreOrdered(g, l, h);
  }

  /** Rounds of one Read and one write of n frames each, the allowances held; the fill before each Read. */
  function FillAfter(g: Geometry, rp: int, wp: int, l: int, h: int, n: nat, rounds: nat): int
    decreases rounds
  {
    if rounds == 0 then wp - rp
    else
      var p := MakePlan(g, rp, wp, l, h, n);
      FillAfter(g, p.start + p.Consumed(n), wp + n, l, h, n, rounds - 1)
  }

  /** Out of the band every such round brings the fill one frame nearer; once inside it stays where it is. */
  lemma {:induction false} FillReachesTheBand(g: Geometry, rp: int, wp: int, l: int, h: int, n: nat, rounds: nat)
    requires WellFormed(g) && InBounds(g, l, h) && 0 < rp && 2 <= n <= wp - rp <= g.floor + l + 2 * g.w + h
    ensures var fill, top := wp - rp, g.floor + l + g.w + h;
            FillAfter(g, rp, wp, l, h, n, rounds) ==
            if fill < g.floor then Min(fill + rounds, g.floor)
            else if fill > top && n < fill then Max(fill - rounds, Max(top, n))
            else fill
    decreases rounds
  {
    if rounds > 0 {
      hide MakePlan, WellFormed, InBounds;
      OneRound(g, rp, wp, l, h, n);
      var p := MakePlan(g, rp, wp, l, h, n);
      FillReachesTheBand(g, p.start + p.Consumed(n), wp + n, l, h, n, rounds - 1);
    }
  }

  lemma OneRound(g: Geometry, rp: int, wp: int, l: int, h: int, n: nat)
    requires WellFormed(g) && InBounds(g, l, h) && 0 < rp && 2 <= n <= wp - rp <= g.floor + l + 2 * g.w + h
    ensures var p, fill, top := MakePlan(g, rp, wp, l, h, n), wp - rp, g.floor + l + g.w + h;
            && p.start == rp && g.floor < top
            && p.Consumed(n) == if fill < g.floor then n - 1 else if fill > top && n < fill then n + 1 else n
  {
    LevelsAreOrdered(g, l, h);
    SnapsExactly(g, rp, wp, l, h, n);
    CorrectionGoesToTheBand(g, rp, wp, l, h, n);
    hide MakePlan;
  }

  // ---------------------------------------------------------------- reader state and controller

  datatype Reader = Reader(
    rp: int, l: int, h: int,
    inserts: nat, drops: nat, ticks: nat,
    lastInserts: nat, lastDrops: nat,
    underruns: nat, overruns: nat, laps: nat, dropped: nat, inserted: nat)

  function InitReader(l: int, h: int): Reader { Reader(0, l, h, 0, 0, 0, 0, 0, 0, 0, 0, 0, 0) }

  /** decide: widen both breached sides, otherwise narrow each fully calm side. */
  function Decide(g: Geometry, l: int, h: int, inserts: nat, drops: nat): (int, int) {
    if Min(inserts, drops) >= g.widenThreshold then
      (if inserts >= g.widenThreshold && l < g.lMax then Min(l + g.widenStep, g.lMax) else l,
       if drops >= g.widenThreshold && h < g.hMax then Min(h + g.widenStep, g.hMax) else h)
    else
      (if inserts == 0 && l > g.lMin then Max(l - g.narrowStep, g.lMin) else l,
       if drops == 0 && h > g.hMin then Max(h - g.narrowStep, g.hMin) else h)
  }

  function Adapt(g: Geometry, r: Reader): Reader {
    if g.windowReads <= 0 then r
    else if r.ticks + 1 < g.windowReads then r.(ticks := r.ticks + 1)
    else
      var (l, h) := Decide(g, r.l, r.h, r.inserts, r.drops);
      r.(lastInserts := r.inserts, lastDrops := r.drops, l := l, h := h, inserts := 0, drops := 0, ticks := 0)
  }

  function PlanOf(g: Geometry, r: Reader, wp: int, n: nat): Plan { MakePlan(g, r.rp, wp, r.l, r.h, n) }

  /** The reader state before adapt() runs. */
  function Settle(r: Reader, p: Plan, n: nat): Reader {
    r.(rp := p.start + p.Consumed(n),
       laps := r.laps + (if p.snap.LapSnap? then 1 else 0),
       overruns := r.overruns + (if p.snap.OverrunSnap? then 1 else 0),
       underruns := r.underruns + (if p.action.Underrun? then 1 else 0),
       dropped := r.dropped + (if p.action.Drop? then 1 else 0),
       drops := r.drops + (if p.action.Drop? then 1 else 0),
       inserted := r.inserted + (if p.action.Insert? then 1 else 0),
       inserts := r.inserts + (if p.action.Insert? then 1 else 0))
  }

  /** One Read of n frames against a published write position; a Read of no frames changes nothing. */
  function ReadStep(g: Geometry, r: Reader, wp: int, n: nat): Reader {
    if n == 0 then r else Adapt(g, Settle(r, PlanOf(g, r, wp, n), n))
  }

  predicate ReaderOk(g: Geometry, r: Reader) {
    r.rp >= 0 && InBounds(g, r.l, r.h) && r.ticks < g.windowReads
  }

  lemma ReadStepKeepsReader(g: Geometry, r: Reader, wp: int, n: nat)
    requires WellFormed(g) && ReaderOk(g, r) && r.rp <= wp
    ensures var r' := ReadStep(g, r, wp, n); ReaderOk(g, r') && r.rp <= r'.rp <= wp
  {
    if n > 0 {
      PlanIsSafe(g, r.rp, wp, r.l, r.h, n);
    }
  }

  /** Without a window breached on both sides neither allowance can rise, and neither leaves its bounds. */
  lemma DecideNeedsBothSides(g: Geometry, l: int, h: int, inserts: nat, drops: nat)
    requires WellFormed(g) && InBounds(g, l, h)
    ensures var (l', h') := Decide(g, l, h, inserts, drops);
            && InBounds(g, l', h')
            && (Min(inserts, drops) < g.widenThreshold ==> l' <= l && h' <= h)
            && (Min(inserts, drops) >= g.widenThreshold ==> l <= l' && h <= h')
            && (inserts == 0 ==> l' == Max(g.lMin, l - g.narrowStep))
            && (drops == 0 ==> h' == Max(g.hMin, h - g.narrowStep))
  {
  }

  /** How far a closing window moves each allowance: both up a step at the threshold, else each calm side down one. */
  lemma DecideMovesExactly(g: Geometry, l: int, h: int, inserts: nat, drops: nat)
    requires WellFormed(g) && InBounds(g, l, h)
    ensures var (l', h') := Decide(g, l, h, inserts, drops);
            if inserts >= g.widenThreshold && drops >= g.widenThreshold then
              l' == Min(l + g.widenStep, g.lMax) && h' == Min(h + g.widenStep, g.hMax)
            else
              && l' == (if inserts == 0 then Max(l - g.narrowStep, g.lMin) else l)
              && h' == (if drops == 0 then Max(h - g.narrowStep, g.hMin) else h)
  {
  }

  /** A window closes with its windowReads-th read: its counts are published and start over; only then L and H move. */
  lemma WindowClosesExactly(g: Geometry, r: Reader)
    requires WellFormed(g)
    ensures var t := Adapt(g, r);
            if r.ticks + 1 >= g.windowReads then
              && t.lastInserts == r.inserts && t.lastDrops == r.drops && t.inserts == t.drops == t.ticks == 0
              && (t.l, t.h) == Decide(g, r.l, r.h, r.inserts, r.drops)
            else t == r.(ticks := r.ticks + 1)
    ensures Adapt(g, r).rp == r.rp && Adapt(g, r).dropped == r.dropped && Adapt(g, r).inserted == r.inserted
  {
    hide Decide;
  }

  /** What a Read adds to the statistics: one underrun, lap, overrun, drop or insert for each that happens. */
  lemma StatisticsCount(g: Geometry, r: Reader, wp: int, n: nat)
    requires WellFormed(g) && ReaderOk(g, r) && r.rp <= wp && n >= 2
    ensures var p, t := PlanOf(g, r, wp, n), ReadStep(g, r, wp, n);
            var fill := wp - p.start;
            && t.underruns - r.underruns == (if !p.action.Wait? && fill < n then 1 else 0)
            && t.laps - r.laps == (if r.rp > 0 && wp - r.rp >= g.capacity then 1 else 0)
            && t.dropped - r.dropped == (if t.rp == p.start + n + 1 then 1 else 0)
            && t.inserted - r.inserted == (if t.rp == p.start + n - 1 then 1 else 0)
  {
    SnapsExactly(g, r.rp, wp, r.l, r.h, n);
    CorrectionGoesToTheBand(g, r.rp, wp, r.l, r.h, n);
    LapsOnlyWhilePlaying(g, r.rp, wp, r.l, r.h, n);
    hide MakePlan, Decide;
  }

  /** A start leaves less than a ring, so only a buffer that was playing can be lapped. */
  lemma LapsOnlyWhilePlaying(g: Geometry, rp: int, wp: int, l: int, h: int, n: nat)
    requires WellFormed(g) && InBounds(g, l, h) && 0 <= rp <= wp
    ensures var p := MakePlan(g, rp, wp, l, h, n);
            && (rp == 0 ==> !p.snap.LapSnap? && !p.snap.OverrunSnap?)
            && (p.action.Underrun? <==> !p.action.Wait? && wp - p.start < n)
            && (p.action.Drop? ==> p.Consumed(n) == n + 1) && (p.action.Insert? ==> p.Consumed(n) == n - 1)
            && (p.action.Plain? ==> p.Consumed(n) == n)
  {
    LevelsAreOrdered(g, l, h);
  }

  // ---------------------------------------------------------------- whole runs

  datatype Event = Wrote(frames: nat) | Asked(frames: nat)

  /** The buffer's heads and what the run has done so far. */
  datatype Run = Run(wp: int, r: Reader, played: nat, skipped: int)

  function RunStep(g: Geometry, s: Run, e: Event): Run {
    match e
    case Wrote(k) => s.(wp := s.wp + Min(k, g.capacity))
    case Asked(0) => s
    case Asked(n) =>
      var p := PlanOf(g, s.r, s.wp, n);
      s.(r := ReadStep(g, s.r, s.wp, n),
         played := s.played + (if p.Audible() then n else 0),
         skipped := s.skipped + (p.start - s.r.rp))
  }

  function RunAll(g: Geometry, s: Run, events: seq<Event>): Run {
    if events == [] then s else RunStep(g, RunAll(g, s, events[..|events| - 1]), events[|events| - 1])
  }

  predicate RunOk(g: Geometry, s: Run) { ReaderOk(g, s.r) && s.r.rp <= s.wp && s.skipped >= 0 }

  predicate Conserved(s: Run) { s.r.rp == s.played + s.r.dropped - s.r.inserted + s.skipped }

  /**
   * Frame conservation over any run: the read head only moves forward, never passes the write head, and
   * always equals frames played + dropped - inserted + frames skipped by snaps.
   */
  lemma {:induction false} FramesAreConserved(g: Geometry, s: Run, events: seq<Event>)
    requires WellFormed(g) && RunOk(g, s) && Conserved(s)
    ensures var t := RunAll(g, s, events);
            RunOk(g, t) && Conserved(t) && s.r.rp <= t.r.rp && s.wp <= t.wp && s.skipped <= t.skipped
  {
    if events != [] {
      var before := RunAll(g, s, events[..|events| - 1]);
      FramesAreConserved(g, s, events[..|events| - 1]);
      match events[|events| - 1]
      case Wrote(k) =>
      case Asked(n) =>
        ReadStepKeepsReader(g, before.r, before.wp, n);
        if n > 0 {
          PlanIsSafe(g, before.r.rp, before.wp, before.r.l, before.r.h, n);
        }
    }
  }

  /** A window is two-sided when it closes with both correction counts at the threshold. */
  predicate ClosesTwoSided(g: Geometry, r: Reader, wp: int, n: nat) {
    && n > 0
    && var q := Settle(r, PlanOf(g, r, wp, n), n);
       q.ticks + 1 >= g.windowReads && Min(q.inserts, q.drops) >= g.widenThreshold
  }

  predicate NoTwoSidedWindow(g: Geometry, s: Run, events: seq<Event>) {
    forall i {:trigger events[i]} :: 0 <= i < |events| && events[i].Asked? ==>
      var t := RunAll(g, s, events[..i]);
      !ClosesTwoSided(g, t.r, t.wp, events[i].frames)
  }

  /** No run without a two-sided window ever raises L or H. */
  lemma {:induction false} DriftNeverWidens(g: Geometry, s: Run, events: seq<Event>)
    requires WellFormed(g) && RunOk(g, s) && Conserved(s) && NoTwoSidedWindow(g, s, events)
    ensures var t := RunAll(g, s, events); t.r.l <= s.r.l && t.r.h <= s.r.h
  {
    if events != [] {
      var init := events[..|events| - 1];
      forall i {:trigger init[i]} | 0 <= i < |init| && init[i].Asked?
        ensures var t := RunAll(g, s, init[..i]); !ClosesTwoSided(g, t.r, t.wp, init[i].frames)
      {
        assert events[i] == init[i] && events[..i] == init[..i];
      }
      DriftNeverWidens(g, s, init);
      FramesAreConserved(g, s, init);
      var t := RunAll(g, s, init);
      match events[|events| - 1]
      case Wrote(k) =>
      case Asked(n) =>
        if n > 0 {
          var q := Settle(t.r, PlanOf(g, t.r, t.wp, n), n);
          assert !ClosesTwoSided(g, t.r, t.wp, events[|events| - 1].frames);
          DecideNeedsBothSides(g, q.l, q.h, q.inserts, q.drops);
        }
    }
  }

  /** What k calm windows leave of an allowance v with lower bound lo. */
  function NarrowedAfter(lo: int, v: int, step: int, k: nat): int { Max(lo, v - k * step) }

  lemma NarrowOnceMore(lo: int, v: int, step: int, k: nat)
    requires step >= 0 && v >= lo
    ensures NarrowedAfter(lo, v, step, k + 1) == Max(lo, NarrowedAfter(lo, v, step, k) - step)
  {
    assert (k + 1) * step == k * step + step;
  }

  /** Whole windows and left-over ticks after m reads: m / size and m % size, counted one read at a time. */
  function Elapsed(size: int, m: nat): (e: (nat, int))
    ensures size > 0 ==> 0 <= e.1 < size
  {
    if m == 0 then (0, 0)
    else
      var (windows, ticks) := Elapsed(size, m - 1);
      if ticks + 1 < size then (windows, ticks + 1) else (windows + 1, 0)
  }

  lemma {:induction false} ElapsedIsDivMod(size: int, m: nat)
    requires size > 0
    ensures Elapsed(size, m) == (m / size, m % size)
  {
    if m == 0 {
      DivModUnique(0, 0, 0, size);
    } else {
      ElapsedIsDivMod(size, m - 1);
      Successor(m - 1, size);
    }
  }

  predicate Ticks(e: Event) { e.Asked? && e.frames > 0 }

  /** How many reads of at least one frame a run holds: these are what the window counts. */
  function Reads(events: seq<Event>): nat {
    if events == [] then 0
    else Reads(events[..|events| - 1]) + (if Ticks(events[|events| - 1]) then 1 else 0)
  }

  lemma {:induction false} CountersGrow(g: Geometry, s: Run, events: seq<Event>)
    ensures RunAll(g, s, events).r.inserted >= s.r.inserted && RunAll(g, s, events).r.dropped >= s.r.dropped
  {
    if events != [] {
      CountersGrow(g, s, events[..|events| - 1]);
    }
  }

  /** The low side m reads into a calm stretch that began with allowance v at the start of a window. */
  predicate CalmLow(g: Geometry, v: int, r: Reader, m: nat)
    requires g.windowReads > 0
  {
    && r.inserts == 0 && r.ticks == Elapsed(g.windowReads, m).1
    && r.l == NarrowedAfter(g.lMin, v, g.narrowStep, Elapsed(g.windowReads, m).0)
  }

  lemma CalmLowStep(g: Geometry, v: int, r: Reader, wp: int, n: nat, m: nat)
    requires WellFormed(g) && ReaderOk(g, r) && n > 0 && v >= g.lMin && CalmLow(g, v, r, m)
    requires ReadStep(g, r, wp, n).inserted == r.inserted
    ensures CalmLow(g, v, ReadStep(g, r, wp, n), m + 1)
  {
    var q := Settle(r, PlanOf(g, r, wp, n), n);
    DecideNeedsBothSides(g, q.l, q.h, q.inserts, q.drops);
    NarrowOnceMore(g.lMin, v, g.narrowStep, Elapsed(g.windowReads, m).0);
  }

  /**
   * Counted from the start of a window, k insert-free windows bring L to exactly
   * max(lMin, L - k * narrowStep), whatever the drop side does meanwhile.
   */
  lemma {:induction false} CalmLowSideNarrows(g: Geometry, s: Run, events: seq<Event>)
    requires WellFormed(g) && RunOk(g, s) && Conserved(s) && s.r.ticks == 0 && s.r.inserts == 0
    requires RunAll(g, s, events).r.inserted == s.r.inserted
    ensures CalmLow(g, s.r.l, RunAll(g, s, events).r, Reads(events))
  {
    if events != [] {
      var init, e := events[..|events| - 1], events[|events| - 1];
      CountersGrow(g, s, init);
      CalmLowSideNarrows(g, s, init);
      FramesAreConserved(g, s, init);
      if Ticks(e) {
        CalmLowStep(g, s.r.l, RunAll(g, s, init).r, RunAll(g, s, init).wp, e.frames, Reads(init));
      }
    }
  }

  /** The high side m reads into a calm stretch that began with allowance v at the start of a window. */
  predicate CalmHigh(g: Geometry, v: int, r: Reader, m: nat)
    requires g.windowReads > 0
  {
    && r.drops == 0 && r.ticks == Elapsed(g.windowReads, m).1
    && r.h == NarrowedAfter(g.hMin, v, g.narrowStep, Elapsed(g.windowReads, m).0)
  }

  lemma CalmHighStep(g: Geometry, v: int, r: Reader, wp: int, n: nat, m: nat)
    requires WellFormed(g) && ReaderOk(g, r) && n > 0 && v >= g.hMin && CalmHigh(g, v, r, m)
    requires ReadStep(g, r, wp, n).dropped == r.dropped
    ensures CalmHigh(g, v, ReadStep(g, r, wp, n), m + 1)
  {
    var q := Settle(r, PlanOf(g, r, wp, n), n);
    DecideNeedsBothSides(g, q.l, q.h, q.inserts, q.drops);
    NarrowOnceMore(g.hMin, v, g.narrowStep, Elapsed(g.windowReads, m).0);
  }

  /** The same law for the high side and drop-free windows. */
  lemma {:induction false} CalmHighSideNarrows(g: Geometry, s: Run, events: seq<Event>)
    requires WellFormed(g) && RunOk(g, s) && Conserved(s) && s.r.ticks == 0 && s.r.drops == 0
    requires RunAll(g, s, events).r.dropped == s.r.dropped
    ensures CalmHigh(g, s.r.h, RunAll(g, s, events).r, Reads(events))
  {
    if events != [] {
      var init, e := events[..|events| - 1], events[|events| - 1];
      CountersGrow(g, s, init);
      CalmHighSideNarrows(g, s, init);
      FramesAreConserved(g, s, init);
      if Ticks(e) {
        CalmHighStep(g, s.r.h, RunAll(g, s, init).r, RunAll(g, s, init).wp, e.frames, Reads(init));
      }
    }
  }
}
