/**
 * A balanced stream: one W-frame write for every k reads of R frames, with W = k * R. Once it has
 * started, it plays untouched forever exactly when the start left room below the narrowest window the
 * controller can reach.
 */
module JitterBalanced {
  import opened Common
  import opened RingArithmetic
  import opened JitterReader
  import JitterBuffer

  /** The schedule: frame size of a read, reads per write, and reads already done since the last write. */
  datatype Beat = Beat(frames: nat, perWrite: nat, offset: nat)

  predicate Fits(g: Geometry, b: Beat) {
    && 0 < b.frames <= g.floor && 0 < b.perWrite && b.offset < b.perWrite
    && g.w == b.perWrite * b.frames
  }

  /** The run starts here: this read snaps to its operating point. */
  predicate Starts(g: Geometry, b: Beat, s: Run) {
    && WellFormed(g) && Fits(g, b) && RunOk(g, s)
    && !PlanOf(g, s.r, s.wp, b.frames).snap.NoSnap?
  }

  /** Reads done since the last write when read m is due; a write is due when it comes round to 0. */
  function Phase(b: Beat, m: nat): (p: nat)
    requires b.offset < b.perWrite
    ensures p < b.perWrite
  {
    if m == 0 then b.offset
    else if Phase(b, m - 1) + 1 == b.perWrite then 0
    else Phase(b, m - 1) + 1
  }

  /** Frames read since the last write when read m is due. */
  function Lag(b: Beat, m: nat): int
    requires b.offset < b.perWrite
  {
    if m == 0 then b.offset * b.frames
    else if Phase(b, m) == 0 then 0
    else Lag(b, m - 1) + b.frames
  }

  /** The state just before read m, a write included when it is due; read 0 is the starting read. */
  function Before(g: Geometry, b: Beat, s: Run, m: nat): Run
    requires b.offset < b.perWrite
  {
    if m == 0 then s
    else
      var t := RunStep(g, Before(g, b, s, m - 1), Asked(b.frames));
      if Phase(b, m) == 0 then RunStep(g, t, Wrote(b.perWrite * b.frames)) else t
  }

  predicate IsClean(p: Plan) { p.snap.NoSnap? && p.action.Plain? }

  predicate Clean(g: Geometry, b: Beat, s: Run, m: nat)
    requires b.offset < b.perWrite
  {
    var t := Before(g, b, s, m);
    IsClean(PlanOf(g, t.r, t.wp, b.frames))
  }

  /** The fill just after a write; every later fill is this minus what was read since. */
  function Peak(g: Geometry, b: Beat, l: int): int
    requires b.offset < b.perWrite
  {
    g.floor + l + g.w + Lag(b, 0)
  }

  predicate OnSawtooth(g: Geometry, b: Beat, s: Run, m: nat)
    requires b.offset < b.perWrite
  {
    var t := Before(g, b, s, m);
    RunOk(g, t) && t.r.rp > 0 && t.wp - t.r.rp == Peak(g, b, s.r.l) - Lag(b, m)
  }

  lemma {:induction false} LagIsPhaseTimesFrames(b: Beat, m: nat)
    requires b.offset < b.perWrite
    ensures Lag(b, m) == Phase(b, m) * b.frames && 0 <= Lag(b, m) <= b.perWrite * b.frames - b.frames
  {
    if m > 0 {
      LagIsPhaseTimesFrames(b, m - 1);
      assert (Phase(b, m - 1) + 1) * b.frames == Phase(b, m - 1) * b.frames + b.frames;
    }
    MulMono(0, Phase(b, m), b.frames);
    MulMono(Phase(b, m), b.perWrite - 1, b.frames);
    assert (b.perWrite - 1) * b.frames == b.perWrite * b.frames - b.frames;
  }

  /** A write comes due exactly when a whole writer frame has been read. */
  lemma LagTurns(b: Beat, m: nat)
    requires b.offset < b.perWrite
    ensures Lag(b, m + 1) == if Phase(b, m + 1) == 0 then Lag(b, m) + b.frames - b.perWrite * b.frames
                             else Lag(b, m) + b.frames
  {
    LagIsPhaseTimesFrames(b, m);
    if Phase(b, m + 1) == 0 {
      assert (b.perWrite - 1) * b.frames == b.perWrite * b.frames - b.frames;
    }
  }

  /** A fill inside [floor, dropLine] is played as it is. */
  lemma InsideTheBandPlaysPlain(g: Geometry, rp: int, wp: int, l: int, h: int, n: nat)
    requires WellFormed(g) && InBounds(g, l, h) && rp > 0 && 0 < n <= g.floor
    requires g.floor <= wp - rp <= DropLine(g, l, h)
    ensures IsClean(MakePlan(g, rp, wp, l, h, n))
  {
    LevelsAreOrdered(g, l, h);
  }

  /** One read of the sawtooth to the next, given where the head ended up. */
  lemma SawtoothAdvances(g: Geometry, b: Beat, s: Run, m: nat)
    requires WellFormed(g) && Fits(g, b) && RunOk(g, Before(g, b, s, m))
    requires var u := RunStep(g, Before(g, b, s, m), Asked(b.frames));
             RunOk(g, u) && u.r.rp > 0 && u.wp - u.r.rp == Peak(g, b, s.r.l) - Lag(b, m) - b.frames
    ensures OnSawtooth(g, b, s, m + 1)
  {
    LagTurns(b, m);
  }

  lemma StartEntersSawtooth(g: Geometry, b: Beat, s: Run)
    requires Starts(g, b, s)
    ensures OnSawtooth(g, b, s, 1)
  {
    LevelsAreOrdered(g, s.r.l, s.r.h);
    PlanIsSafe(g, s.r.rp, s.wp, s.r.l, s.r.h, b.frames);
    ReadStepKeepsReader(g, s.r, s.wp, b.frames);
    SawtoothAdvances(g, b, s, 0);
  }

  lemma CleanReadStaysOnSawtooth(g: Geometry, b: Beat, s: Run, m: nat)
    requires WellFormed(g) && Fits(g, b) && OnSawtooth(g, b, s, m) && Clean(g, b, s, m)
    ensures OnSawtooth(g, b, s, m + 1)
  {
    var t := Before(g, b, s, m);
    PlanIsSafe(g, t.r.rp, t.wp, t.r.l, t.r.h, b.frames);
    ReadStepKeepsReader(g, t.r, t.wp, b.frames);
    SawtoothAdvances(g, b, s, m);
  }

  lemma RoomMeansClean(g: Geometry, b: Beat, s: Run, m: nat)
    requires WellFormed(g) && Fits(g, b) && s.r.l >= 0 && OnSawtooth(g, b, s, m)
    requires s.r.l + b.offset * b.frames <= g.lMin + g.hMin
    ensures Clean(g, b, s, m)
  {
    var t := Before(g, b, s, m);
    LagIsPhaseTimesFrames(b, m);
    LagIsPhaseTimesFrames(b, 0);
    InsideTheBandPlaysPlain(g, t.r.rp, t.wp, t.r.l, t.r.h, b.frames);
  }

  /** Sufficiency: with room, no read after the start splices, snaps or underruns, however adapt() narrows. */
  lemma {:induction false} BalancedStaysClean(g: Geometry, b: Beat, s: Run, m: nat)
    requires Starts(g, b, s) && m >= 1
    requires s.r.l + b.offset * b.frames <= g.lMin + g.hMin
    ensures OnSawtooth(g, b, s, m) && Clean(g, b, s, m)
  {
    hide RunStep, MakePlan;
    if m == 1 {
      StartEntersSawtooth(g, b, s);
    } else {
      BalancedStaysClean(g, b, s, m - 1);
      CleanReadStaysOnSawtooth(g, b, s, m - 1);
    }
    RoomMeansClean(g, b, s, m);
  }

  // ------------------------------------------------------------------ necessity

  /** Every read after the start and before read m is clean. */
  predicate CleanBefore(g: Geometry, b: Beat, s: Run, m: nat)
    requires b.offset < b.perWrite
  {
    m <= 1 || (CleanBefore(g, b, s, m - 1) && Clean(g, b, s, m - 1))
  }

  lemma {:induction false} FirstUnclean(g: Geometry, b: Beat, s: Run, m: nat) returns (i: nat)
    requires b.offset < b.perWrite && !CleanBefore(g, b, s, m)
    ensures 1 <= i < m && !Clean(g, b, s, i)
  {
    hide Clean, Before, RunStep, MakePlan;
    if CleanBefore(g, b, s, m - 1) {
      i := m - 1;
    } else {
      i := FirstUnclean(g, b, s, m - 1);
    }
  }

  lemma {:induction false} CleanPrefix(g: Geometry, b: Beat, s: Run, m: nat, n: nat)
    requires b.offset < b.perWrite && m <= n && CleanBefore(g, b, s, n)
    ensures CleanBefore(g, b, s, m)
  {
    if m < n {
      CleanPrefix(g, b, s, m, n - 1);
    }
  }

  lemma {:induction false} CleanKeepsSawtooth(g: Geometry, b: Beat, s: Run, m: nat)
    requires Starts(g, b, s) && m >= 1
    requires CleanBefore(g, b, s, m)
    ensures OnSawtooth(g, b, s, m)
  {
    hide RunStep, MakePlan;
    if m == 1 {
      StartEntersSawtooth(g, b, s);
    } else {
      CleanKeepsSawtooth(g, b, s, m - 1);
      CleanReadStaysOnSawtooth(g, b, s, m - 1);
    }
  }

  lemma NextReader(g: Geometry, b: Beat, s: Run, m: nat)
    requires b.offset < b.perWrite && b.frames > 0 && m >= 1
    ensures Before(g, b, s, m).r == ReadStep(g, Before(g, b, s, m - 1).r, Before(g, b, s, m - 1).wp, b.frames)
  {
  }

  lemma ReadTicks(g: Geometry, r: Reader, wp: int, n: nat)
    requires WellFormed(g) && n > 0
    ensures var r' := ReadStep(g, r, wp, n);
            if r.ticks + 1 < g.windowReads then r'.ticks == r.ticks + 1
            else r'.ticks == 0 && r'.inserts == 0 && r'.drops == 0
  {
  }

  /** Both sides m reads into a calm stretch that began in reader state v. */
  predicate Calm(g: Geometry, v: Reader, r: Reader, m: nat)
    requires g.windowReads > 0
  {
    InBounds(g, v.l, v.h) && CalmLow(g, v.l, r, m) && CalmHigh(g, v.h, r, m)
  }

  lemma CleanReadIsCalm(g: Geometry, b: Beat, s: Run, v: Reader, m: nat, k: nat)
    requires WellFormed(g) && Fits(g, b) && OnSawtooth(g, b, s, m) && Clean(g, b, s, m)
    requires Calm(g, v, Before(g, b, s, m).r, k)
    ensures Calm(g, v, Before(g, b, s, m + 1).r, k + 1)
  {
    var t := Before(g, b, s, m);
    NextReader(g, b, s, m + 1);
    CalmLowStep(g, v.l, t.r, t.wp, b.frames, k);
    CalmHighStep(g, v.h, t.r, t.wp, b.frames, k);
  }

  /** The first window to close after the start leaves both counters at zero. */
  lemma {:induction false} FirstWindowCloses(g: Geometry, b: Beat, s: Run, m: nat)
    requires Starts(g, b, s) && m >= 1 && s.r.ticks + m <= g.windowReads
    requires CleanBefore(g, b, s, m)
    ensures var r := Before(g, b, s, m).r;
            if s.r.ticks + m < g.windowReads then r.ticks == s.r.ticks + m
            else r.ticks == 0 && r.inserts == 0 && r.drops == 0
  {
    NextReader(g, b, s, m);
    ReadTicks(g, Before(g, b, s, m - 1).r, Before(g, b, s, m - 1).wp, b.frames);
    if m > 1 {
      FirstWindowCloses(g, b, s, m - 1);
    }
  }

  /** From a window boundary on, a clean stretch is calm on both sides. */
  lemma {:induction false} CleanStretchIsCalm(g: Geometry, b: Beat, s: Run, from: nat, k: nat)
    requires Starts(g, b, s) && 1 <= from
    requires CleanBefore(g, b, s, from + k)
    requires var r := Before(g, b, s, from).r; r.ticks == 0 && r.inserts == 0 && r.drops == 0
    ensures Calm(g, Before(g, b, s, from).r, Before(g, b, s, from + k).r, k)
  {
    hide RunStep, MakePlan, WellFormed;
    if k == 0 {
      CleanKeepsSawtooth(g, b, s, from);
    } else {
      assert CleanBefore(g, b, s, from + k - 1) && Clean(g, b, s, from + k - 1);
      CleanStretchIsCalm(g, b, s, from, k - 1);
      CleanKeepsSawtooth(g, b, s, from + k - 1);
      CleanReadIsCalm(g, b, s, Before(g, b, s, from).r, from + k - 1, k - 1);
    }
  }

  lemma EnoughWindowsReachTheFloor(lo: int, v: int, step: int, k: nat)
    requires step >= 1 && 0 <= lo <= v <= k
    ensures NarrowedAfter(lo, v, step, k) == lo
  {
    MulMono(1, step, k);
    assert k * step == step * k;
  }

  /** A read due right after a write, at least n reads in. */
  lemma {:induction false} LaterWrite(b: Beat, n: nat) returns (m: nat)
    requires b.offset < b.perWrite
    ensures m > n && Phase(b, m) == 0
    decreases b.perWrite - Phase(b, n)
  {
    if Phase(b, n + 1) == 0 {
      m := n + 1;
    } else {
      m := LaterWrite(b, n + 1);
    }
  }

  lemma WindowsElapsed(count: nat, windows: nat, size: nat)
    requires size > 0 && count >= windows * size
    ensures Elapsed(size, count).0 >= windows
  {
    ElapsedIsDivMod(size, count);
    hide Elapsed;
    QuotientAtLeast(count, windows, size);
  }

  lemma QuotientAtLeast(count: nat, windows: nat, size: nat)
    requires size > 0 && count >= windows * size
    ensures count / size >= windows
  {
    var k := count / size;
    assert (k + 1) * size == k * size + size;
    if k < windows {
      MulMono(k + 1, windows, size);
    }
  }

  lemma AboveTheBandIsNotClean(g: Geometry, rp: int, wp: int, l: int, h: int, n: nat)
    requires WellFormed(g) && InBounds(g, l, h) && rp > 0 && 0 < n <= g.floor
    requires wp - rp > DropLine(g, l, h)
    ensures !IsClean(MakePlan(g, rp, wp, l, h, n))
  {
  }

  lemma LongCalmReachesTheFloor(g: Geometry, v: Reader, r: Reader, k: nat)
    requires WellFormed(g) && g.narrowStep >= 1 && Calm(g, v, r, k) && k >= (g.lMax + g.hMax) * g.windowReads
    ensures r.l == g.lMin && r.h == g.hMin
  {
    WindowsElapsed(k, g.lMax + g.hMax, g.windowReads);
    EnoughWindowsReachTheFloor(g.lMin, v.l, g.narrowStep, Elapsed(g.windowReads, k).0);
    EnoughWindowsReachTheFloor(g.hMin, v.h, g.narrowStep, Elapsed(g.windowReads, k).0);
    hide Elapsed, NarrowedAfter;
  }

  /** Long enough calm on the sawtooth, right after a write, means both allowances are at their minimum. */
  lemma LongCalmIsNotClean(g: Geometry, b: Beat, s: Run, v: Reader, m: nat, k: nat)
    requires Starts(g, b, s) && g.narrowStep >= 1 && OnSawtooth(g, b, s, m) && Phase(b, m) == 0 && m > 0
    requires s.r.l + b.offset * b.frames > g.lMin + g.hMin
    requires Calm(g, v, Before(g, b, s, m).r, k) && k >= (g.lMax + g.hMax) * g.windowReads
    ensures !Clean(g, b, s, m)
  {
    var t := Before(g, b, s, m);
    LongCalmReachesTheFloor(g, v, t.r, k);
    hide Calm, Before, MakePlan, Elapsed;
    AboveTheBandIsNotClean(g, t.r.rp, t.wp, t.r.l, t.r.h, b.frames);
  }

  /** Without room, once the window has narrowed fully, the first read after a write is not clean. */
  lemma NarrowingMeansACorrection(g: Geometry, b: Beat, s: Run) returns (m: nat)
    requires Starts(g, b, s) && g.narrowStep >= 1
    requires s.r.l + b.offset * b.frames > g.lMin + g.hMin
    ensures m >= 1 && !Clean(g, b, s, m)
  {
    hide RunStep, MakePlan;
    var from := g.windowReads - s.r.ticks;
    m := LaterWrite(b, from + (g.lMax + g.hMax) * g.windowReads);
    if CleanBefore(g, b, s, m) {
      CleanPrefix(g, b, s, from, m);
      FirstWindowCloses(g, b, s, from);
      CleanStretchIsCalm(g, b, s, from, m - from);
      CleanKeepsSawtooth(g, b, s, m);
      LongCalmIsNotClean(g, b, s, Before(g, b, s, from).r, m, m - from);
    } else {
      m := FirstUnclean(g, b, s, m);
    }
  }

  // ------------------------------------------------------------------ a controller that cannot narrow

  /** Reads from the start to the first one with a write before it. */
  function FirstWrite(b: Beat): nat
    requires b.offset < b.perWrite
  {
    b.perWrite - b.offset
  }

  /** With a narrowing step of 0: the allowances at the start, and those the first closing window leaves. */
  function Held(g: Geometry, s: Run, m: nat): (int, int) {
    if s.r.ticks + m < g.windowReads then (s.r.l, s.r.h) else Decide(g, s.r.l, s.r.h, s.r.inserts, s.r.drops)
  }

  predicate Holding(g: Geometry, s: Run, r: Reader, m: nat) {
    && (r.l, r.h) == Held(g, s, m)
    && (if s.r.ticks + m < g.windowReads then r.ticks == s.r.ticks + m && r.inserts == s.r.inserts
          && r.drops == s.r.drops
        else r.inserts == 0 && r.drops == 0)
  }

  lemma ReadHolds(g: Geometry, s: Run, r: Reader, wp: int, n: nat, m: nat)
    requires WellFormed(g) && g.narrowStep == 0 && n > 0 && InBounds(g, s.r.l, s.r.h) && Holding(g, s, r, m)
    requires InBounds(g, r.l, r.h) && PlanOf(g, r, wp, n).action in {Plain, Underrun, Wait}
    ensures Holding(g, s, ReadStep(g, r, wp, n), m + 1)
  {
  }

  lemma {:induction false} AllowancesHold(g: Geometry, b: Beat, s: Run, m: nat)
    requires Starts(g, b, s) && g.narrowStep == 0 && m >= 1 && CleanBefore(g, b, s, m)
    ensures Holding(g, s, Before(g, b, s, m).r, m)
  {
    hide Before, Starts, MakePlan, RunStep, Holding, OnSawtooth, Clean;
    if m == 1 {
      FirstReadHolds(g, b, s);
    } else {
      AllowancesHold(g, b, s, m - 1);
      CleanKeepsSawtooth(g, b, s, m - 1);
      NextReadHolds(g, b, s, m);
    }
  }

  /** The read that starts the run snaps and does not splice. */
  lemma FirstReadHolds(g: Geometry, b: Beat, s: Run)
    requires Starts(g, b, s) && g.narrowStep == 0
    ensures Holding(g, s, Before(g, b, s, 1).r, 1)
  {
    PlanIsSafe(g, s.r.rp, s.wp, s.r.l, s.r.h, b.frames);
    NextReader(g, b, s, 1);
    hide MakePlan, RunStep;
    assert Holding(g, s, s.r, 0);
    ReadHolds(g, s, s.r, s.wp, b.frames, 0);
  }

  lemma NextReadHolds(g: Geometry, b: Beat, s: Run, m: nat)
    requires Starts(g, b, s) && g.narrowStep == 0 && m >= 2
    requires OnSawtooth(g, b, s, m - 1) && Clean(g, b, s, m - 1) && Holding(g, s, Before(g, b, s, m - 1).r, m - 1)
    ensures Holding(g, s, Before(g, b, s, m).r, m)
  {
    hide Before, MakePlan, RunStep, Holding;
    NextReader(g, b, s, m);
    var t := Before(g, b, s, m - 1);
    ReadHolds(g, s, t.r, t.wp, b.frames, m - 1);
  }

  /** Without a narrowing step the allowances never fall. */
  lemma HeldNeverFalls(g: Geometry, s: Run, m: nat, n: nat)
    requires WellFormed(g) && g.narrowStep == 0 && InBounds(g, s.r.l, s.r.h) && m <= n
    ensures s.r.l <= Held(g, s, m).0 <= Held(g, s, n).0 && 0 <= s.r.h <= Held(g, s, m).1 <= Held(g, s, n).1
  {
  }

  lemma {:induction false} PhaseBeforeTheFirstWrite(b: Beat, m: nat)
    requires b.offset < b.perWrite && m <= FirstWrite(b)
    ensures Phase(b, m) == if m < FirstWrite(b) then b.offset + m else 0
  {
    if m > 0 { PhaseBeforeTheFirstWrite(b, m - 1); }
  }

  lemma HeldRoomMeansClean(g: Geometry, b: Beat, s: Run, m: nat)
    requires Starts(g, b, s) && g.narrowStep == 0 && m >= 1 && CleanBefore(g, b, s, m)
    requires var (l, h) := Held(g, s, FirstWrite(b)); s.r.l + Lag(b, 0) <= l + h
    ensures Clean(g, b, s, m)
  {
    CleanKeepsSawtooth(g, b, s, m);
    AllowancesHold(g, b, s, m);
    LagBounds(g, b, m);
    hide Fits, Lag, MakePlan, Before, CleanBefore, RunStep, Phase, RunOk;
    var t := Before(g, b, s, m);
    HeldCoversTheLag(g, s, FirstWrite(b), m, Lag(b, 0), Lag(b, m));
    FillInBand(g, s.r.l, t.r.l, t.r.h, Lag(b, 0), Lag(b, m), t.wp - t.r.rp);
    InsideTheBandPlaysPlain(g, t.r.rp, t.wp, t.r.l, t.r.h, b.frames);
  }

  lemma HeldCoversTheLag(g: Geometry, s: Run, first: nat, m: nat, lag0: int, lag: int)
    requires WellFormed(g) && g.narrowStep == 0 && InBounds(g, s.r.l, s.r.h) && lag >= 0
    requires s.r.l + lag0 <= Held(g, s, first).0 + Held(g, s, first).1 && (m < first ==> lag0 <= lag)
    ensures s.r.l + lag0 - lag <= Held(g, s, m).0 + Held(g, s, m).1
  {
    HeldNeverFalls(g, s, m, m);
    if m >= first { HeldNeverFalls(g, s, first, m); }
    hide Held;
  }

  lemma FillInBand(g: Geometry, start: int, l: int, h: int, lag0: int, lag: int, fill: int)
    requires fill == g.floor + start + g.w + lag0 - lag && start >= 0 && lag0 >= 0 && lag <= g.w
             && start + lag0 - lag <= l + h
    ensures g.floor <= fill <= DropLine(g, l, h)
  {
  }

  /** The lag is less than a writer frame, and before the first write it only grows. */
  lemma LagBounds(g: Geometry, b: Beat, m: nat)
    requires Fits(g, b)
    ensures 0 <= Lag(b, m) <= g.w && 0 <= Lag(b, 0) && 0 < b.frames <= g.floor
    ensures m < FirstWrite(b) ==> Lag(b, 0) <= Lag(b, m)
  {
    LagIsPhaseTimesFrames(b, m);
    LagIsPhaseTimesFrames(b, 0);
    if m < FirstWrite(b) {
      PhaseBeforeTheFirstWrite(b, m);
      MulMono(b.offset, b.offset + m, b.frames);
    }
  }

  lemma NoHeldRoomMeansACorrection(g: Geometry, b: Beat, s: Run) returns (m: nat)
    requires Starts(g, b, s) && g.narrowStep == 0
    requires var (l, h) := Held(g, s, FirstWrite(b)); s.r.l + b.offset * b.frames > l + h
    ensures m >= 1 && !Clean(g, b, s, m)
  {
    m := FirstWrite(b);
    if CleanBefore(g, b, s, m) {
      CleanKeepsSawtooth(g, b, s, m);
      AllowancesHold(g, b, s, m);
      LagIsPhaseTimesFrames(b, m);
      LagIsPhaseTimesFrames(b, 0);
      PhaseBeforeTheFirstWrite(b, m);
      var t := Before(g, b, s, m);
      hide Before, CleanBefore, MakePlan, RunStep, Held, Phase, Lag;
      AboveTheBandIsNotClean(g, t.r.rp, t.wp, t.r.l, t.r.h, b.frames);
    } else {
      m := FirstUnclean(g, b, s, m);
    }
  }

  // ------------------------------------------------------------------ exactly when

  /**
   * The narrowest the window gets while a write is due: its minimum if the controller can narrow at all, and otherwise
   * what it is when the first write comes due.
   */
  function LeastRoom(g: Geometry, b: Beat, s: Run): int
    requires b.offset < b.perWrite
  {
    if g.narrowStep >= 1 then g.lMin + g.hMin
    else var (l, h) := Held(g, s, FirstWrite(b)); l + h
  }

  lemma {:induction false} RoomStaysClean(g: Geometry, b: Beat, s: Run, m: nat)
    requires Starts(g, b, s) && m >= 1 && s.r.l + b.offset * b.frames <= LeastRoom(g, b, s)
    ensures CleanBefore(g, b, s, m) && Clean(g, b, s, m) && OnSawtooth(g, b, s, m)
  {
    assert g.narrowStep >= 0;
    hide RunStep, MakePlan, Starts;
    if m > 1 { RoomStaysClean(g, b, s, m - 1); }
    if g.narrowStep >= 1 {
      BalancedStaysClean(g, b, s, m);
    } else {
      assert Lag(b, 0) == b.offset * b.frames;
      HeldRoomMeansClean(g, b, s, m);
      CleanKeepsSawtooth(g, b, s, m);
    }
  }

  lemma NoRoomMeansACorrection(g: Geometry, b: Beat, s: Run) returns (m: nat)
    requires Starts(g, b, s) && s.r.l + b.offset * b.frames > LeastRoom(g, b, s)
    ensures m >= 1 && !Clean(g, b, s, m)
  {
    if g.narrowStep >= 1 {
      m := NarrowingMeansACorrection(g, b, s);
    } else {
      m := NoHeldRoomMeansACorrection(g, b, s);
    }
  }

  /** A balanced stream is clean forever if and only if L + j * R fits the least room. */
  lemma BalancedIsCleanForever(g: Geometry, b: Beat, s: Run)
    requires Starts(g, b, s)
    ensures (forall m :: m >= 1 ==> Clean(g, b, s, m)) <==> s.r.l + b.offset * b.frames <= LeastRoom(g, b, s)
  {
    if s.r.l + b.offset * b.frames <= LeastRoom(g, b, s) {
      forall m | m >= 1 ensures Clean(g, b, s, m) {
        RoomStaysClean(g, b, s, m);
      }
    } else {
      var m := NoRoomMeansACorrection(g, b, s);
    }
  }

  /** Everything heard from read 1 up to, not including, read m. */
  function Heard(g: Geometry, b: Beat, s: Run, stream: seq<JitterBuffer.Frame>, m: nat): seq<JitterBuffer.Frame>
    requires b.offset < b.perWrite && b.frames > 0 && g.nc > 0 && JitterBuffer.Uniform(stream, g.nc)
  {
    if m <= 1 then []
    else
      var t := Before(g, b, s, m - 1);
      Heard(g, b, s, stream, m - 1) + Emitted(g, stream, PlanOf(g, t.r, t.wp, b.frames), b.frames)
  }

  /** What one read emits, if the stream reaches far enough. */
  function Emitted(g: Geometry, stream: seq<JitterBuffer.Frame>, p: Plan, n: nat): seq<JitterBuffer.Frame>
    requires g.nc > 0 && JitterBuffer.Uniform(stream, g.nc) && n > 0
  {
    if (p.Audible() ==> 0 <= p.start && TouchedEnd(p, n) <= |stream|) && (p.action.Insert? ==> n >= 2)
    then JitterBuffer.Sound(stream, p, n, g.nc)
    else []
  }

  lemma PlayedInPlace(g: Geometry, b: Beat, s: Run, m: nat)
    requires Starts(g, b, s) && m >= 1 && Clean(g, b, s, m)
    ensures var t := Before(g, b, s, m);
            && PlanOf(g, t.r, t.wp, b.frames) == Plan(NoSnap, t.r.rp, Plain)
            && Before(g, b, s, m + 1).r.rp == t.r.rp + b.frames
  {
    var t := Before(g, b, s, m);
    hide Before, RunStep, MakePlan, ReadStep, Starts;
    StartsFits(g, b, s);
    NextReader(g, b, s, m + 1);
    CleanPlan(g, t.r.rp, t.wp, t.r.l, t.r.h, b.frames);
    PlainMoves(g, t.r, t.wp, b.frames);
  }

  lemma StartsFits(g: Geometry, b: Beat, s: Run)
    requires Starts(g, b, s)
    ensures WellFormed(g) && b.offset < b.perWrite && b.frames > 0
  {
  }

  lemma CleanPlan(g: Geometry, rp: int, wp: int, l: int, h: int, n: nat)
    requires IsClean(MakePlan(g, rp, wp, l, h, n))
    ensures MakePlan(g, rp, wp, l, h, n) == Plan(NoSnap, rp, Plain)
  {
  }

  lemma PlainMoves(g: Geometry, r: Reader, wp: int, n: nat)
    requires n > 0 && PlanOf(g, r, wp, n) == Plan(NoSnap, r.rp, Plain)
    ensures ReadStep(g, r, wp, n).rp == r.rp + n
  {
    hide MakePlan, Decide;
  }

  /** What a balanced listener hears is the stream itself, without a gap, a repeat or a blend. */
  lemma {:induction false} BalancedPlaysTheStream(g: Geometry, b: Beat, s: Run, stream: seq<JitterBuffer.Frame>, m: nat)
    requires Starts(g, b, s) && s.r.l + b.offset * b.frames <= LeastRoom(g, b, s)
    requires m >= 1 && JitterBuffer.Uniform(stream, g.nc) && |stream| >= Before(g, b, s, m).r.rp
    ensures 0 <= Before(g, b, s, 1).r.rp <= Before(g, b, s, m).r.rp
    ensures Heard(g, b, s, stream, m) == stream[Before(g, b, s, 1).r.rp..Before(g, b, s, m).r.rp]
  {
    hide RunStep, MakePlan, Starts, Peak;
    if m == 1 {
      StartEntersSawtooth(g, b, s);
    } else {
      RoomStaysClean(g, b, s, m - 1);
      PlayedInPlace(g, b, s, m - 1);
      BalancedPlaysTheStream(g, b, s, stream, m - 1);
    }
  }
}
