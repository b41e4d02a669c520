/**
 * The FILLING / PLAYING ring buffer: a bounded queue of interleaved floats over an append-only stream, with one-frame
 * drift correction and an overrun snap.
 */
module CircularBuffer {
  import opened Common
  import opened RingArithmetic
  import opened RingStorage

  // ------------------------------------------------------------------ configuration

  datatype Config = Config(sampleRate: int, numChannels: int, targetMs: int, windowMs: int, minMs: int, maxMs: int,
                           capacityMs: int, interval: int)

  /** capacity counts floats, the other levels count samples per channel. */
  datatype Geometry = Geometry(capacity: int, nc: int, targetLow: int, targetHigh: int, targetCentre: int,
                               minSamples: int, maxSamples: int, interval: int)

  function DefaultVal(v: int, d: int): int { if v == 0 then d else v }

  function MsToSamples(ms: int, sr: int): int { GoDiv(ms * sr, 1000) }

  function GeometryOf(cfg: Config): Geometry {
    var sr := DefaultVal(cfg.sampleRate, 48000);
    var nc := DefaultVal(cfg.numChannels, 1);
    var target := DefaultVal(cfg.targetMs, 40);
    var window := DefaultVal(cfg.windowMs, 40);
    Geometry(MsToSamples(DefaultVal(cfg.capacityMs, 1000), sr) * nc, nc,
             MsToSamples(target - GoDiv(window, 2), sr), MsToSamples(target + GoDiv(window, 2), sr),
             MsToSamples(target, sr),
             MsToSamples(DefaultVal(cfg.minMs, 10), sr), MsToSamples(DefaultVal(cfg.maxMs, 200), sr),
             DefaultVal(cfg.interval, 2))
  }

  /** A 48 kHz mono buffer with every level left to its default, in samples. */
  lemma DefaultLevels()
    ensures GeometryOf(Config(0, 0, 0, 0, 0, 0, 0, 0)) == Geometry(48000, 1, 960, 2880, 1920, 480, 9600, 2)
  {
  }

  /** Where the snap leads: the target is not negative and not above any fill that triggers it. */
  predicate SnapsForward(g: Geometry)
    requires g.nc > 0
  {
    0 <= g.targetCentre <= Max(g.maxSamples + 1, 0) || g.capacity / g.nc <= g.maxSamples
  }

  /** A buffer that passes the underrun check below the target still has a frame to repeat. */
  predicate RepeatsFrames(g: Geometry) { g.minSamples >= 1 || g.targetLow <= 0 }

  /** Whole frames fit the ring, and the two corrections find what they need. */
  predicate Sane(g: Geometry) {
    g.nc > 0 && g.capacity > 0 && g.capacity % g.nc == 0 && SnapsForward(g) && RepeatsFrames(g)
  }

  /** With positive rates and a ring of at least one sample, only the two guards decide; the usual levels meet them. */
  lemma SaneConfig(cfg: Config)
    requires DefaultVal(cfg.sampleRate, 48000) > 0 && DefaultVal(cfg.numChannels, 1) > 0
    requires DefaultVal(cfg.capacityMs, 1000) * DefaultVal(cfg.sampleRate, 48000) >= 1000
    ensures Sane(GeometryOf(cfg)) <==> SnapsForward(GeometryOf(cfg)) && RepeatsFrames(GeometryOf(cfg))
    ensures 0 < DefaultVal(cfg.targetMs, 40) <= DefaultVal(cfg.maxMs, 200) ==> SnapsForward(GeometryOf(cfg))
    ensures DefaultVal(cfg.minMs, 10) * DefaultVal(cfg.sampleRate, 48000) >= 1000 ==> RepeatsFrames(GeometryOf(cfg))
  {
    var sr, nc := DefaultVal(cfg.sampleRate, 48000), DefaultVal(cfg.numChannels, 1);
    var frames := MsToSamples(DefaultVal(cfg.capacityMs, 1000), sr);
    if 0 < DefaultVal(cfg.targetMs, 40) <= DefaultVal(cfg.maxMs, 200) {
      MulMono(DefaultVal(cfg.targetMs, 40), DefaultVal(cfg.maxMs, 200), sr);
      MulMono(0, DefaultVal(cfg.targetMs, 40), sr);
    }
    MulMono(1, frames, nc);
    DivModUnique(frames * nc, frames, 0, nc);
  }

  lemma LevelMono(a: int, b: int, nc: int)
    requires nc > 0 && a <= b
    ensures Level(a, nc) <= Level(b, nc)
  {
    if Level(a, nc) >= Level(b, nc) + 1 { MulMono(Level(b, nc) + 1, Level(a, nc), nc); }
  }

  lemma LevelOfFrames(frames: int, nc: int)
    requires nc > 0
    ensures Level(frames * nc, nc) == frames
  {
    DivModUnique(frames * nc, frames, 0, nc);
  }

  /** The guard is exact: no fill the ring can hold makes the snap move the reader back, or past the writer. */
  lemma SnapsForwardExactly(g: Geometry)
    requires g.nc > 0 && g.capacity > 0
    ensures SnapsForward(g)
       <==> (forall fill: nat :: fill <= g.capacity && Level(fill, g.nc) > g.maxSamples ==>
               0 <= g.targetCentre * g.nc <= fill)
  {
    if SnapsForward(g) {
      forall fill: nat | fill <= g.capacity && Level(fill, g.nc) > g.maxSamples
        ensures 0 <= g.targetCentre * g.nc <= fill
      {
        SnapLands(g, fill);
      }
    } else {
      var least := Max(g.maxSamples + 1, 0);
      LeastSnappingFill(g, least);
      assert !(0 <= g.targetCentre * g.nc <= least * g.nc);
    }
  }

  /** Where the guard fails, the least fill that triggers the snap lies below the target, or the target is negative. */
  lemma LeastSnappingFill(g: Geometry, least: nat)
    requires g.nc > 0 && g.capacity > 0 && !SnapsForward(g) && least == Max(g.maxSamples + 1, 0)
    ensures 0 <= least * g.nc <= g.capacity && Level(least * g.nc, g.nc) == least > g.maxSamples
    ensures g.targetCentre * g.nc < 0 || g.targetCentre * g.nc > least * g.nc
  {
    var frames := g.capacity / g.nc;
    assert frames * g.nc <= g.capacity;
    assert least <= frames && (g.targetCentre < 0 || g.targetCentre > least);
    MulMono(0, least, g.nc);
    MulMono(least, frames, g.nc);
    LevelOfFrames(least, g.nc);
    hide SnapsForward, Level;
    BeyondFrames(g.targetCentre, least, g.nc);
  }

  lemma BeyondFrames(centre: int, least: int, nc: int)
    requires nc > 0 && (centre < 0 || centre > least)
    ensures centre * nc < 0 || centre * nc > least * nc
  {
    if centre > least {
      MulMono(least + 1, centre, nc);
      assert (least + 1) * nc == least * nc + nc;
    } else {
      MulMono(centre, -1, nc);
    }
  }

  lemma SnapLands(g: Geometry, fill: nat)
    requires g.nc > 0 && SnapsForward(g) && fill <= g.capacity && Level(fill, g.nc) > g.maxSamples
    ensures 0 <= g.targetCentre * g.nc <= fill
  {
    LevelMono(fill, g.capacity, g.nc);
    MulMono(0, g.targetCentre, g.nc);
    MulMono(g.targetCentre, Level(fill, g.nc), g.nc);
  }

  lemma SnapStays(g: Geometry, fill: nat)
    requires g.nc > 0 && fill <= g.capacity && (SnapsForward(g) || !Back(g, fill)) && Level(fill, g.nc) > g.maxSamples
    ensures 0 <= g.targetCentre * g.nc <= fill
  {
    if SnapsForward(g) { SnapLands(g, fill); }
  }

  /** The guard is exact: whatever the fill and the pacing, an insert correction finds a frame to repeat. */
  lemma RepeatsFramesExactly(g: Geometry)
    requires g.nc > 0 && g.capacity > 0
    ensures RepeatsFrames(g)
       <==> (forall fill: nat, counter: int ::
               fill <= g.capacity && Level(fill, g.nc) >= g.minSamples && Correction(g, Level(fill, g.nc), counter) < 0
               ==> fill >= g.nc)
  {
    if RepeatsFrames(g) {
      forall fill: nat, counter: int |
        fill <= g.capacity && Level(fill, g.nc) >= g.minSamples && Correction(g, Level(fill, g.nc), counter) < 0
        ensures fill >= g.nc
      {
        InsertFindsAFrame(g, fill, counter);
      }
    } else {
      assert Level(0, g.nc) == 0 && Correction(g, Level(0, g.nc), g.interval) == -1;
    }
  }

  lemma InsertFindsAFrame(g: Geometry, fill: nat, counter: int)
    requires g.nc > 0 && RepeatsFrames(g)
    requires Level(fill, g.nc) >= g.minSamples && Correction(g, Level(fill, g.nc), counter) < 0
    ensures fill >= g.nc
  {
    LevelMono(0, fill, g.nc);
    WholeFramesAvailable(fill, g.nc, 1);
  }

  /**
   * A target above the maximum: the buffer starts at 13440 samples and the snap sets the reader 960 before the stream.
   */
  lemma TargetAboveMaximumSnapsBack()
    ensures var g := GeometryOf(Config(0, 0, 300, 0, 0, 0, 0, 0));
            && !SnapsForward(g) && 13440 <= g.capacity
            && Level(13440, g.nc) >= g.targetLow && Level(13440, g.nc) > g.maxSamples
            && 13440 - g.targetCentre * g.nc == -960
  {
  }

  /** A minimum below one sample: an empty buffer goes on playing and repeats a frame it does not have. */
  lemma NoMinimumRepeatsNothing(m: nat)
    requires m > 0
    ensures var g := GeometryOf(Config(0, 0, 0, 0, -10, 0, 0, 0));
            && !RepeatsFrames(g) && Level(0, g.nc) >= g.minSamples && Correction(g, 0, 1) == -1
            && PlanFor(g, 0, 0, -1, m) == Play(0, 0, 0, true)
  {
  }

  /** What the plan copies has room in a destination of m floats; an insert copies at least one frame. */
  predicate Fits(p: Plan, m: nat) { p.Play? ==> p.shown <= m }

  /** However much is buffered and whatever the correction, the copy fits the destination exactly from one frame on. */
  lemma CopyFitsExactly(g: Geometry, m: nat)
    requires g.nc > 0 && m > 0
    ensures m >= g.nc <==> forall available: nat, correction :: Fits(PlanFor(g, available, 0, correction, m), m)
  {
    if m < g.nc {
      assert !Fits(PlanFor(g, g.nc, 0, -1, m), m);
    }
  }

  // ------------------------------------------------------------------ the queue

  /** Where the reader stands in the stream, and its state machine. */
  datatype Reader = Reader(pos: nat, playing: bool, counter: int, underruns: nat, overruns: nat, dropped: nat,
                           inserted: nat)

  const START := Reader(0, false, 0, 0, 0, 0, 0)

  datatype Plan = Silence | Play(start: nat, shown: nat, consumed: nat, repeatLast: bool)

  /** What is left of a write that alone exceeds the ring: its newest floats. */
  function Clipped(src: seq<real>, capacity: nat): seq<real> {
    if |src| > capacity then src[|src| - capacity..] else src
  }

  /** The newest n elements. */
  function Newest(s: seq<real>, n: nat): seq<real> { if |s| > n then s[|s| - n..] else s }

  /** Whole samples per channel. */
  function Level(available: int, nc: int): int
    requires nc > 0
  {
    available / nc
  }

  /** The reader is at most one ring behind. */
  predicate Within(g: Geometry, total: nat, r: Reader) { r.pos <= total <= r.pos + g.capacity }

  /** A snap at this fill would set the reader back, or past the writer. */
  predicate Back(g: Geometry, fill: nat)
    requires g.nc > 0
  {
    Level(fill, g.nc) > g.maxSamples && !(0 <= g.targetCentre * g.nc <= fill)
  }

  /** The next Read plays or starts playing, and its snap goes back. */
  predicate MovesBack(g: Geometry, total: nat, r: Reader)
    requires g.nc > 0 && Within(g, total, r)
  {
    (r.playing || Level(total - r.pos, g.nc) >= g.targetLow) && Back(g, total - r.pos)
  }

  predicate Readable(g: Geometry, total: nat, r: Reader) {
    g.nc > 0 && Within(g, total, r) && (SnapsForward(g) || !MovesBack(g, total, r))
  }

  /** The overrun snap: more than the maximum is cut to the target. */
  function Snapped(g: Geometry, total: nat, r: Reader): (s: Reader)
    requires g.nc > 0 && Within(g, total, r) && (SnapsForward(g) || !Back(g, total - r.pos))
    ensures r.pos <= s.pos <= total
  {
    if Level(total - r.pos, g.nc) > g.maxSamples then
      SnapStays(g, total - r.pos);
      r.(pos := total - g.targetCentre * g.nc, overruns := r.overruns + 1)
    else r
  }

  /** +1 to drop a frame, -1 to repeat one, 0 otherwise; at most every interval reads. */
  function Correction(g: Geometry, fill: int, counter: int): int {
    if counter + 1 < g.interval then 0
    else if fill < g.targetLow then -1
    else if fill > g.targetHigh then 1
    else 0
  }

  function PlanFor(g: Geometry, available: nat, start: nat, correction: int, m: nat): Plan
    requires g.nc > 0
  {
    if correction > 0 then Play(start, Min(m, available), Min(m + g.nc, available), false)
    else if correction < 0 then var k := Min(Max(m - g.nc, g.nc), available); Play(start, k, k, true)
    else Play(start, Min(m, available), Min(m, available), false)
  }

  function ReadStep(g: Geometry, total: nat, r: Reader, m: nat): (Plan, Reader)
    requires Readable(g, total, r) && m > 0
  {
    var fill := Level(total - r.pos, g.nc);
    if !r.playing && fill < g.targetLow then (Silence, r)
    else
      var started := if r.playing then r else r.(playing := true, counter := 0);
      var s := Snapped(g, total, started);
      var level := Level(total - s.pos, g.nc);
      if level < g.minSamples then (Silence, s.(playing := false, underruns := s.underruns + 1))
      else
        var correction := Correction(g, level, s.counter);
        var p := PlanFor(g, total - s.pos, s.pos, correction, m);
        (p, s.(pos := s.pos + p.consumed,
               counter := if s.counter + 1 < g.interval then s.counter + 1 else 0,
               dropped := s.dropped + Max(correction, 0), inserted := s.inserted + Max(-correction, 0)))
  }

  /** What a Read of m floats emits. */
  function Sound(g: Geometry, stream: seq<real>, p: Plan, m: nat): seq<real>
    requires g.nc > 0
    requires p.Play? ==> p.shown <= m && p.start + p.shown <= |stream| && (p.repeatLast ==> p.shown >= g.nc)
  {
    match p
    case Silence => seq(m, _ => 0.0)
    case Play(start, shown, _, repeatLast) =>
      var head := stream[start..start + shown];
      head + Padding(head, g.nc, repeatLast, m - shown)
  }

  /** n floats after head: its last frame over and over, or zeros. */
  function Padding(head: seq<real>, nc: int, repeatLast: bool, n: nat): seq<real>
    requires nc > 0 && (repeatLast ==> |head| >= nc)
  {
    seq(n, i requires 0 <= i < n => if repeatLast then head[|head| - nc + Cycle(i, nc)] else 0.0)
  }

  function Cycle(i: nat, nc: int): (r: nat)
    requires nc > 0
    ensures r < nc
  {
    i % nc
  }

  // ------------------------------------------------------------------ what holds of every Read

  lemma WholeFramesAvailable(available: nat, nc: int, level: int)
    requires nc > 0 && Level(available, nc) >= level >= 1
    ensures available >= level * nc >= nc
  {
    MulMono(level, Level(available, nc), nc);
    MulMono(1, level, nc);
  }

  /** The snap never moves the reader back, and the level it leaves is the target. */
  lemma SnapMovesForward(g: Geometry, total: nat, r: Reader)
    requires Sane(g) && Within(g, total, r)
    ensures var s := Snapped(g, total, r);
            && r.pos <= s.pos <= total
            && (s.overruns != r.overruns <==> Level(total - r.pos, g.nc) > g.maxSamples)
            && (s.overruns != r.overruns ==> total - s.pos == g.targetCentre * g.nc)
            && (s.overruns == r.overruns ==> s == r)
  {
    if Level(total - r.pos, g.nc) > g.maxSamples { SnapLands(g, total - r.pos); }
  }

  /** A Read shows a contiguous piece of the unread stream and moves the reader forward past it, never past the end. */
  lemma ReadStaysInside(g: Geometry, total: nat, r: Reader, m: nat)
    requires Sane(g) && Within(g, total, r) && m >= g.nc
    ensures var (p, n) := ReadStep(g, total, r, m);
            && r.pos <= n.pos <= total
            && (p.Play? ==>
                  && r.pos <= p.start && p.shown <= m && p.shown <= p.consumed <= p.shown + g.nc
                  && n.pos == p.start + p.consumed && (p.repeatLast ==> g.nc <= p.shown == p.consumed))
  {
    var started := if r.playing then r else r.(playing := true, counter := 0);
    SnapMovesForward(g, total, started);
    var s := Snapped(g, total, started);
    var level := Level(total - s.pos, g.nc);
    if level >= g.minSamples && Correction(g, level, s.counter) < 0 { InsertFindsAFrame(g, total - s.pos, s.counter); }
    hide Snapped, Correction, Level;
  }

  /** A Read is audible exactly when the buffer plays or has filled to the target, and is not below the minimum then. */
  lemma AudibleExactly(g: Geometry, total: nat, r: Reader, m: nat)
    requires Sane(g) && Within(g, total, r) && m > 0
    ensures var (p, n) := ReadStep(g, total, r, m);
            var fill := Level(total - r.pos, g.nc);
            && (p.Play? <==> (r.playing || fill >= g.targetLow)
                             && (if fill > g.maxSamples then g.targetCentre else fill) >= g.minSamples)
            && (n.playing <==> p.Play?)
  {
    var started := if r.playing then r else r.(playing := true, counter := 0);
    SnapMovesForward(g, total, started);
    if Level(total - r.pos, g.nc) > g.maxSamples { LevelOfFrames(g.targetCentre, g.nc); }
    hide Snapped, Correction, PlanFor;
  }

  /**
   * Which way a correction goes,
       for a Read that plays with enough buffered: above the target window it takes a frame more
   * than it was asked for and shows all of it, below it takes a frame less and repeats the last, and inside,
       or while the
   * pacing counter has not come round, it takes what it shows.
   */
  lemma CorrectionGoesToTheWindow(g: Geometry, total: nat, r: Reader, m: nat)
    requires Sane(g) && Within(g, total, r) && m >= 2 * g.nc && r.playing && ReadStep(g, total, r, m).0.Play?
    requires total - Snapped(g, total, r).pos >= m + g.nc
    ensures var (p, n) := ReadStep(g, total, r, m);
            var level := (total - p.start) / g.nc;
            var due := r.counter + 1 >= g.interval;
            && p.start == Snapped(g, total, r).pos && n.pos == p.start + p.consumed
            && (p.consumed == m + g.nc <==> due && level > g.targetHigh && level >= g.targetLow)
            && (p.consumed == m - g.nc <==> due && level < g.targetLow)
            && (p.consumed == m || p.consumed == m + g.nc ==> p.shown == m && !p.repeatLast)
            && (p.consumed == m - g.nc ==> p.shown == m - g.nc && p.repeatLast)
            && (p.consumed == m || p.consumed == m + g.nc || p.consumed == m - g.nc)
            && n.dropped - r.dropped == (if p.consumed == m + g.nc then 1 else 0)
            && n.inserted - r.inserted == (if p.consumed == m - g.nc then 1 else 0)
            && n.counter == (if due then 0 else r.counter + 1)
  {
    SnapMovesForward(g, total, r);
    hide Snapped;
  }

  /** What a plan sounds like, float by float: what it shows, then its last frame over and over, or zeros. */
  lemma SoundExactly(g: Geometry, stream: seq<real>, p: Plan, m: nat, i: nat)
    requires g.nc > 0 && i < m
    requires p.Play? ==> p.shown <= m && p.start + p.shown <= |stream| && (p.repeatLast ==> p.shown >= g.nc)
    ensures |Sound(g, stream, p, m)| == m && (p.Silence? ==> Sound(g, stream, p, m)[i] == 0.0)
    ensures p.Play? ==>
              Sound(g, stream, p, m)[i] ==
              if i < p.shown then stream[p.start + i]
              else if p.repeatLast then stream[p.start + p.shown - g.nc + (i - p.shown) % g.nc]
              else 0.0
  {
    if p.Play? && p.repeatLast && i >= p.shown { RepeatedFloat(g, stream, p, m, i - p.shown); }
  }

  /**
   * A Read that is refused for want of data counts one underrun and stops playing; one that snaps counts one overrun.
   */
  lemma StatisticsCount(g: Geometry, total: nat, r: Reader, m: nat)
    requires Sane(g) && Within(g, total, r) && m > 0
    ensures var (p, n) := ReadStep(g, total, r, m);
            var fill := (total - r.pos) / g.nc;
            var reaches := r.playing || fill >= g.targetLow;
            && n.overruns - r.overruns == (if reaches && fill > g.maxSamples then 1 else 0)
            && n.underruns - r.underruns == (if reaches && p.Silence? then 1 else 0)
            && (!reaches ==> n == r)
  {
    SnapMovesForward(g, total, if r.playing then r else r.(playing := true, counter := 0));
    hide Correction, PlanFor;
  }

  // ------------------------------------------------------------------ channel alignment

  predicate Whole(x: int, nc: int)
    requires nc > 0
  {
    x % nc == 0
  }

  lemma WholeSum(x: int, y: int, nc: int)
    requires nc > 0 && Whole(x, nc) && Whole(y, nc)
    ensures Whole(x + y, nc) && Whole(x - y, nc)
  {
    var a, b := x / nc, y / nc;
    assert (a + b) * nc == a * nc + b * nc && (a - b) * nc == a * nc - b * nc;
    DivModUnique(x + y, a + b, 0, nc);
    DivModUnique(x - y, a - b, 0, nc);
  }

  lemma WholeProduct(k: int, nc: int)
    requires nc > 0
    ensures Whole(k * nc, nc)
  {
    DivModUnique(k * nc, k, 0, nc);
  }

  lemma PlanIsAligned(g: Geometry, available: nat, start: nat, correction: int, m: nat)
    requires Sane(g) && Whole(available, g.nc) && Whole(m, g.nc)
    ensures var p := PlanFor(g, available, start, correction, m); Whole(p.shown, g.nc) && Whole(p.consumed, g.nc)
  {
    WholeProduct(1, g.nc);
    WholeSum(m, g.nc, g.nc);
    hide Whole;
  }

  /** With whole frames in the stream, every Read of whole frames starts, shows and consumes whole frames. */
  lemma ReadIsAligned(g: Geometry, total: nat, r: Reader, m: nat)
    requires Sane(g) && Within(g, total, r) && m > 0 && Whole(total, g.nc) && Whole(r.pos, g.nc) && Whole(m, g.nc)
    ensures var (p, n) := ReadStep(g, total, r, m);
            Whole(n.pos, g.nc) && (p.Play? ==> Whole(p.start, g.nc) && Whole(p.shown, g.nc) && Whole(p.consumed, g.nc))
  {
    var started := if r.playing then r else r.(playing := true, counter := 0);
    var s := Snapped(g, total, started);
    SnapMovesForward(g, total, started);
    WholeProduct(g.targetCentre, g.nc);
    WholeSum(total, g.targetCentre * g.nc, g.nc);
    assert Whole(s.pos, g.nc);
    WholeSum(total, s.pos, g.nc);
    var correction := Correction(g, Level(total - s.pos, g.nc), s.counter);
    PlanIsAligned(g, total - s.pos, s.pos, correction, m);
    WholeSum(s.pos, PlanFor(g, total - s.pos, s.pos, correction, m).consumed, g.nc);
    hide Snapped, Correction, PlanFor, Whole;
  }

  lemma SameChannel(a: int, i: int, nc: int)
    requires nc > 0 && Whole(a, nc) && i >= 0
    ensures (a + i) % nc == i % nc
  {
    var q, p := a / nc, i / nc;
    assert (q + p) * nc == q * nc + p * nc;
    DivModUnique(a + i, q + p, i % nc, nc);
  }

  /** Each float of an audible Read is silence or a float of its own channel out of the piece shown. */
  lemma EveryFloatKeepsItsChannel(g: Geometry, stream: seq<real>, p: Plan, m: nat, i: nat)
    requires Sane(g) && p.Play? && p.shown <= m && p.start + p.shown <= |stream| && (p.repeatLast ==> p.shown >= g.nc)
    requires Whole(p.start, g.nc) && Whole(p.shown, g.nc) && i < m
    ensures Sound(g, stream, p, m)[i] == 0.0
            || exists j :: p.start <= j < p.start + p.shown && j % g.nc == i % g.nc
                           && Sound(g, stream, p, m)[i] == stream[j]
  {
    var nc := g.nc;
    if i < p.shown {
      SameChannel(p.start, i, nc);
      assert Sound(g, stream, p, m)[i] == stream[p.start + i];
    } else if p.repeatLast {
      var k := i - p.shown;
      RepeatedChannel(p.start, p.shown, k, nc);
      RepeatedFloat(g, stream, p, m, k);
    }
  }

  /** The j-th float after the shown piece is a float of the last frame shown, in the channel it lands in. */
  lemma RepeatedChannel(start: nat, shown: nat, k: nat, nc: int)
    requires nc > 0 && Whole(start, nc) && Whole(shown, nc)
    ensures 0 <= k % nc < nc && (start + shown - nc + k % nc) % nc == (shown + k) % nc
  {
    var last := k % nc;
    WholeSum(start, shown, nc);
    WholeProduct(1, nc);
    WholeSum(start + shown, nc, nc);
    SameChannel(shown, k, nc);
    DivModUnique(last, 0, last, nc);
    LastFrameChannel(start + shown - nc, last, nc);
  }

  lemma LastFrameChannel(base: int, last: int, nc: int)
    requires nc > 0 && Whole(base, nc) && 0 <= last < nc
    ensures (base + last) % nc == last
  {
    DivModUnique(base + last, base / nc, last, nc);
  }

  lemma RepeatedFloat(g: Geometry, stream: seq<real>, p: Plan, m: nat, k: nat)
    requires g.nc > 0 && p.Play? && p.repeatLast && p.shown + k < m && p.start + p.shown <= |stream| && p.shown >= g.nc
    ensures 0 <= k % g.nc < g.nc
    ensures Sound(g, stream, p, m)[p.shown + k] == stream[p.start + p.shown - g.nc + k % g.nc]
  {
  }

  // ------------------------------------------------------------------ whole runs

  datatype Event = Write(src: seq<real>) | Read(m: nat)

  /** shown and skipped count the floats played and the floats lost to overflow, snaps and drops. */
  datatype Run = Run(stream: seq<real>, reader: Reader, shown: nat, skipped: int)

  function Step(g: Geometry, run: Run, e: Event): Run
    requires g.nc > 0 && Within(g, |run.stream|, run.reader)
    requires e.Read? && e.m > 0 ==> Readable(g, |run.stream|, run.reader)
  {
    match e
    case Write(src) =>
      var stream := run.stream + Clipped(src, g.capacity);
      var pos := Max(run.reader.pos, |stream| - g.capacity);
      Run(stream, run.reader.(pos := pos), run.shown, run.skipped + (pos - run.reader.pos))
    case Read(m) =>
      if m == 0 then run
      else
        var (p, n) := ReadStep(g, |run.stream|, run.reader, m);
        var shown := if p.Play? then p.shown else 0;
        Run(run.stream, n, run.shown + shown, run.skipped + (n.pos - run.reader.pos - shown))
  }

  predicate WholeFrames(g: Geometry, e: Event)
    requires g.nc > 0
  {
    Whole(if e.Write? then |e.src| else e.m, g.nc)
  }

  predicate RunOk(g: Geometry, run: Run)
    requires Sane(g)
  {
    && Within(g, |run.stream|, run.reader)
    && Whole(|run.stream|, g.nc) && Whole(run.reader.pos, g.nc)
    && run.reader.pos == run.shown + run.skipped && run.skipped >= 0
  }

  function Unread(run: Run): seq<real>
    requires run.reader.pos <= |run.stream|
  {
    run.stream[run.reader.pos..]
  }

  /** Writing appends to the queue and keeps the newest floats the ring can hold. */
  lemma WriteKeepsTheNewest(g: Geometry, run: Run, src: seq<real>)
    requires Sane(g) && RunOk(g, run) && Whole(|src|, g.nc)
    ensures var n := Step(g, run, Write(src)); RunOk(g, n) && Unread(n) == Newest(Unread(run) + src, g.capacity)
  {
    hide Whole, Sane, Newest;
    var kept := Clipped(src, g.capacity);
    SaneFacts(g);
    ClippedIsWhole(g, src);
    WholeSum(|run.stream|, |kept|, g.nc);
    WholeSum(|run.stream| + |kept|, g.capacity, g.nc);
    QueueKeepsTheNewest(run.stream, run.reader.pos, src, g.capacity);
  }

  lemma SaneFacts(g: Geometry)
    requires Sane(g)
    ensures g.nc > 0 && g.capacity > 0 && Whole(g.capacity, g.nc)
  {
  }

  lemma ClippedIsWhole(g: Geometry, src: seq<real>)
    requires g.nc > 0 && g.capacity > 0 && Whole(g.capacity, g.nc) && Whole(|src|, g.nc)
    ensures Whole(|Clipped(src, g.capacity)|, g.nc)
  {
  }

  lemma AtLeastOneFrame(m: nat, nc: int)
    requires nc > 0 && m > 0 && Whole(m, nc)
    ensures m >= nc
  {
  }

  /** Reading whole frames leaves a tail of the queue. */
  lemma ReadTakesTheHead(g: Geometry, run: Run, m: nat)
    requires Sane(g) && RunOk(g, run) && m > 0 && Whole(m, g.nc)
    ensures var n := Step(g, run, Read(m));
            && RunOk(g, n) && n.stream == run.stream
            && run.reader.pos <= n.reader.pos && Unread(n) == Unread(run)[n.reader.pos - run.reader.pos..]
  {
    hide ReadStep, Whole, Sane, SnapsForward;
    SaneFacts(g);
    AtLeastOneFrame(m, g.nc);
    SaneIsReadable(g, |run.stream|, run.reader);
    ReadStaysInside(g, |run.stream|, run.reader, m);
    ReadIsAligned(g, |run.stream|, run.reader, m);
  }

  lemma SaneIsReadable(g: Geometry, total: nat, r: Reader)
    requires Sane(g) && Within(g, total, r)
    ensures Readable(g, total, r)
  {
  }

  /**
   * What an audible Read shows is a piece of the queue: from its head, or from the snap point when there was a snap.
   */
  lemma ReadShowsTheHead(g: Geometry, run: Run, m: nat, p: Plan)
    requires Sane(g) && Within(g, |run.stream|, run.reader) && m >= g.nc
    requires p == ReadStep(g, |run.stream|, run.reader, m).0 && p.Play?
    ensures p.shown <= m && p.start + p.shown <= |run.stream| && (p.repeatLast ==> p.shown >= g.nc)
    ensures run.reader.pos <= p.start
    ensures Sound(g, run.stream, p, m)[..p.shown] == Unread(run)[p.start - run.reader.pos..][..p.shown]
    ensures p.start != run.reader.pos ==> |run.stream| - p.start == g.targetCentre * g.nc
  {
    var r := run.reader;
    var started := if r.playing then r else r.(playing := true, counter := 0);
    ReadStaysInside(g, |run.stream|, r, m);
    SnapMovesForward(g, |run.stream|, started);
    PlayStartsAtTheSnap(g, |run.stream|, r, m);
    hide ReadStep, Snapped, Padding, SnapsForward, RepeatsFrames, Level;
  }

  lemma PlayStartsAtTheSnap(g: Geometry, total: nat, r: Reader, m: nat)
    requires Sane(g) && Within(g, total, r) && m > 0 && ReadStep(g, total, r, m).0.Play?
    ensures ReadStep(g, total, r, m).0.start
         == Snapped(g, total, if r.playing then r else r.(playing := true, counter := 0)).pos
  {
    SnapMovesForward(g, total, if r.playing then r else r.(playing := true, counter := 0));
    hide Snapped, Level, Correction;
  }

  lemma StepKeepsRun(g: Geometry, run: Run, e: Event)
    requires Sane(g) && RunOk(g, run) && WholeFrames(g, e)
    ensures RunOk(g, Step(g, run, e))
  {
    match e
    case Write(src) => WriteKeepsTheNewest(g, run, src);
    case Read(m) => if m > 0 { ReadTakesTheHead(g, run, m); }
  }

  function RunAll(g: Geometry, es: seq<Event>): (run: Run)
    requires Sane(g) && forall i :: 0 <= i < |es| ==> WholeFrames(g, es[i])
    ensures RunOk(g, run)
  {
    if es == [] then FIRST
    else
      var before := RunAll(g, es[..|es| - 1]);
      var e := es[|es| - 1];
      StepKeepsRun(g, before, e);
      Step(g, before, e)
  }

  const FIRST := Run([], START, 0, 0)

  /** Corrections made so far. */
  function Corrections(r: Reader): nat { r.dropped + r.inserted }

  /** Steps of Reads only, of m floats each, with the stream as it is. */
  function ReadsAfter(g: Geometry, total: nat, r: Reader, m: nat, count: nat): (n: Reader)
    requires Sane(g) && Within(g, total, r) && m >= g.nc
    ensures Within(g, total, n)
  {
    if count == 0 then r
    else
      var before := ReadsAfter(g, total, r, m, count - 1);
      SaneIsReadable(g, total, before);
      ReadStaysInside(g, total, before, m);
      ReadStep(g, total, before, m).1
  }

  /** At most one correction for every interval reads, counting what the pacing counter holds. */
  predicate Paced(g: Geometry, r: Reader, n: Reader, count: nat) {
    0 <= n.counter < g.interval && (Corrections(n) - Corrections(r)) * g.interval <= r.counter + count - n.counter
  }

  /** Corrections are paced: there is at most one every interval reads, whatever the fill does. */
  lemma {:induction false} CorrectionsArePaced(g: Geometry, total: nat, r: Reader, m: nat, count: nat)
    requires Sane(g) && Within(g, total, r) && m >= g.nc && g.interval >= 1 && 0 <= r.counter < g.interval
    ensures var n := ReadsAfter(g, total, r, m, count);
            && 0 <= n.counter < g.interval
            && (n.dropped + n.inserted - r.dropped - r.inserted) * g.interval <= r.counter + count - n.counter
  {
    ReadsArePaced(g, total, r, m, count);
    hide ReadsAfter, Sane, Within;
  }

  lemma {:induction false} ReadsArePaced(g: Geometry, total: nat, r: Reader, m: nat, count: nat)
    requires Sane(g) && Within(g, total, r) && m >= g.nc && g.interval >= 1 && 0 <= r.counter < g.interval
    ensures Paced(g, r, ReadsAfter(g, total, r, m, count), count)
  {
    hide ReadStep, Sane, Within, Readable, ReadsAfter, Paced;
    if count > 0 {
      ReadsArePaced(g, total, r, m, count - 1);
      LastRead(g, total, r, m, count);
      NextIsPaced(g, total, r, ReadsAfter(g, total, r, m, count - 1), m, count);
    } else {
      NoReads(g, total, r, m);
    }
  }

  lemma NextIsPaced(g: Geometry, total: nat, r: Reader, before: Reader, m: nat, count: nat)
    requires Sane(g) && Readable(g, total, before) && m > 0 && g.interval >= 1 && count > 0
    requires Paced(g, r, before, count - 1)
    ensures Paced(g, r, ReadStep(g, total, before, m).1, count)
  {
    hide ReadStep, Sane, Readable;
    OneCorrection(g, total, before, m);
    var n := ReadStep(g, total, before, m).1;
    OneMorePaced(Corrections(before) - Corrections(r), Corrections(n) - Corrections(r), g.interval,
                 r.counter + count - 1 - before.counter, r.counter + count - n.counter);
  }

  lemma NoReads(g: Geometry, total: nat, r: Reader, m: nat)
    requires Sane(g) && Within(g, total, r) && m >= g.nc && 0 <= r.counter < g.interval
    ensures ReadsAfter(g, total, r, m, 0) == r && Paced(g, r, r, 0)
  {
  }

  lemma LastRead(g: Geometry, total: nat, r: Reader, m: nat, count: nat)
    requires Sane(g) && Within(g, total, r) && m >= g.nc && count > 0
    ensures var before := ReadsAfter(g, total, r, m, count - 1);
            && m > 0 && Readable(g, total, before)
            && ReadsAfter(g, total, r, m, count) == ReadStep(g, total, before, m).1
  {
    SaneIsReadable(g, total, ReadsAfter(g, total, r, m, count - 1));
    SaneFacts(g);
    hide ReadStep, Sane, Readable;
  }

  lemma OneMorePaced(before: int, after: int, interval: int, credit: int, more: int)
    requires before * interval <= credit && interval >= 1
    requires (after == before && credit <= more) || (after == before + 1 && credit + interval <= more)
    ensures after * interval <= more
  {
    assert (before + 1) * interval == before * interval + interval;
  }

  lemma OneCorrection(g: Geometry, total: nat, r: Reader, m: nat)
    requires Sane(g) && Readable(g, total, r) && m > 0 && g.interval >= 1 && 0 <= r.counter < g.interval
    ensures var n := ReadStep(g, total, r, m).1;
            && 0 <= n.counter < g.interval && n.counter <= r.counter + 1
            && (n.dropped + n.inserted == r.dropped + r.inserted
                || (n.dropped + n.inserted == r.dropped + r.inserted + 1 && n.counter == 0
                   && r.counter == g.interval - 1))
  {
  }

  // ------------------------------------------------------------------ the buffer itself

  /** A modular head moves with its stream position. */
  lemma HeadMoves(pos: nat, k: nat, c: int)
    requires c > 0
    ensures (pos % c + k) % c == (pos + k) % c
  {
    var q, s := pos / c, (pos % c + k) / c;
    assert (q + s) * c == q * c + s * c;
    DivModUnique(pos + k, q + s, (pos % c + k) % c, c);
  }

  /** The heads are the stream positions modulo the ring. */
  predicate HeadsOk(readPos: nat, writePos: nat, pos: nat, total: nat, c: int) {
    c > 0 && readPos == pos % c && writePos == total % c
  }

  lemma PaddingAt(head: seq<real>, nc: int, n: nat, i: nat)
    requires 0 < nc <= |head| && i < n
    ensures Padding(head, nc, true, n)[i] == head[|head| - nc + Cycle(i, nc)]
  {
  }

  /** head and the first k of the n floats that repeat its last frame. */
  function Repeated(head: seq<real>, nc: int, n: nat, k: nat): seq<real>
    requires 0 < nc <= |head| && k <= n
  {
    head + Padding(head, nc, true, n)[..k]
  }

  lemma RepeatedEnds(head: seq<real>, nc: int, n: nat)
    requires 0 < nc <= |head|
    ensures Repeated(head, nc, n, 0) == head && Repeated(head, nc, n, n) == head + Padding(head, nc, true, n)
  {
  }

  lemma RepeatedStep(head: seq<real>, nc: int, n: nat, k: nat)
    requires 0 < nc <= |head| && k < n
    ensures var s, j := Repeated(head, nc, n, k), |head| - nc + Cycle(k, nc);
            0 <= j < |head| <= |s| && Repeated(head, nc, n, k + 1) == s + [s[j]]
  {
    PaddingAt(head, nc, n, k);
    hide Cycle;
  }

  lemma QueueKeepsTheNewest(stream: seq<real>, pos: nat, src: seq<real>, capacity: nat)
    requires pos <= |stream| <= pos + capacity
    ensures var all := stream + Clipped(src, capacity);
            all[Max(pos, |all| - capacity)..] == Newest(stream[pos..] + src, capacity)
  {
  }

  class CircularBuffer {
    const g: Geometry
    const data: array<real>
    var writePos: nat
    var readPos: nat
    var buffered: nat
    var playing: bool
    var correctionCounter: int
    var underrunCount: nat
    var overrunCount: nat
    var samplesDropped: nat
    var samplesInserted: nat

    /** Every float accepted, and how many of them are no longer queued. */
    ghost var stream: seq<real>
    ghost var pos: nat

    ghost function View(): Reader
      reads this
    {
      Reader(pos, playing, correctionCounter, underrunCount, overrunCount, samplesDropped, samplesInserted)
    }

    ghost predicate Valid()
      reads this, data
    {
      && Sane(g) && data.Length == g.capacity
      && pos + buffered == |stream| && buffered <= g.capacity
      && HeadsOk(readPos, writePos, pos, |stream|, g.capacity)
      && Holds(data[..], stream)
    }

    constructor (cfg: Config)
      requires GeometryOf(cfg).capacity >= 0
      ensures fresh(data) && g == GeometryOf(cfg) && stream == [] && View() == START
      ensures Valid() <==> Sane(g)
    {
      g := GeometryOf(cfg);
      data := new real[GeometryOf(cfg).capacity](_ => 0.0);
      writePos, readPos, buffered := 0, 0, 0;
      playing, correctionCounter := false, 0;
      underrunCount, overrunCount, samplesDropped, samplesInserted := 0, 0, 0, 0;
      stream, pos := [], 0;
    }

    /** The copy in one or two runs; the ring ends up as storage by position says. */
    method WriteToRing(src: seq<real>, ghost total: nat)
      requires data.Length > 0 && |src| <= data.Length && writePos == total % data.Length
      modifies data, this`writePos
      ensures data[..] == Laid(old(data[..]), total, src) && writePos == (total + |src|) % data.Length
    {
      var remain := data.Length - writePos;
      HeadMoves(total, |src|, data.Length);
      Advance(total, |src|, data.Length);
      CopyAround(data, writePos, src);
      writePos := if |src| <= remain then (writePos + |src|) % data.Length else |src| - remain;
    }

    /** The oldest floats make room. */
    method MakeRoom(n: nat)
      requires Valid() && n <= g.capacity
      modifies this`readPos, this`buffered, this`pos
      ensures Valid() && buffered + n <= g.capacity && pos == Max(old(pos), |stream| + n - g.capacity)
    {
      hide HeadsOk, Holds;
      if buffered + n > g.capacity { Skip(buffered + n - g.capacity); }
    }

    method Append(kept: seq<real>)
      requires Valid() && buffered + |kept| <= g.capacity
      modifies this`writePos, this`buffered, this`stream, data
      ensures Valid() && stream == old(stream) + kept
    {
      hide Laid, Holds;
      LaidAppends(data[..], stream, kept);
      WriteToRing(kept, |stream|);
      stream := stream + kept;
      buffered := buffered + |kept|;
    }

    /** Never blocks: the ring keeps the newest floats it can hold. */
    method Write(src: seq<real>)
      requires Valid()
      modifies this, data
      ensures Valid() && stream == old(stream) + Clipped(src, g.capacity)
      ensures View() == old(View()).(pos := Max(old(pos), |stream| - g.capacity))
      ensures stream[pos..] == Newest(old(stream[pos..]) + src, g.capacity)
    {
      hide HeadsOk, Holds;
      var kept := Clipped(src, g.capacity);
      QueueKeepsTheNewest(stream, pos, src, g.capacity);
      if |kept| == 0 { return; }
      MakeRoom(|kept|);
      Append(kept);
    }

    /** Forget n queued floats. */
    method Skip(n: nat)
      requires Valid() && n <= buffered
      modifies this`readPos, this`buffered, this`pos
      ensures Valid() && pos == old(pos) + n
    {
      HeadMoves(pos, n, g.capacity);
      readPos := (readPos + n) % g.capacity;
      buffered := buffered - n;
      pos := pos + n;
    }

    method CopyFromRing(dst: array<real>, n: nat)
      requires Valid() && dst != data && n <= buffered && n <= dst.Length
      modifies dst
      ensures dst[..n] == stream[pos..pos + n] && dst[n..] == old(dst[n..])
    {
      hide Holds, Taken, SnapsForward, RepeatsFrames;
      FetchedSlices(data[..], stream, pos, n);
      CopyOut(data, readPos, dst, n);
    }

    method Zero(dst: array<real>, from: nat)
      requires dst != data && from <= dst.Length && g.nc > 0
      modifies dst
      ensures dst[..] == old(dst[..from]) + Padding(old(dst[..from]), g.nc, false, dst.Length - from)
    {
      for i := from to dst.Length
        invariant dst[..from] == old(dst[..from]) && forall k :: from <= k < i ==> dst[k] == 0.0
      {
        dst[i] := 0.0;
      }
    }

    /** Fills the rest of dst with copies of the frame that ends at from. */
    method RepeatLast(dst: array<real>, from: nat)
      requires dst != data && 0 < g.nc <= from <= dst.Length
      modifies dst
      ensures dst[..] == old(dst[..from]) + Padding(old(dst[..from]), g.nc, true, dst.Length - from)
    {
      hide Repeated, Padding, Cycle;
      ghost var head, n := dst[..from], dst.Length - from;
      RepeatedEnds(head, g.nc, n);
      for i := from to dst.Length
        invariant dst[..i] == Repeated(head, g.nc, n, i - from)
      {
        RepeatedStep(head, g.nc, n, i - from);
        var j := from - g.nc + Cycle(i - from, g.nc);
        SetNext(dst, i, dst[j], dst[..i]);
      }
      assert dst[..dst.Length] == dst[..];
    }

    /** The three ways of an audible Read. */
    method Show(dst: array<real>, correction: int) returns (ghost p: Plan)
      requires Valid() && dst != data && (correction < 0 ==> buffered >= g.nc)
      requires Fits(PlanFor(g, buffered, pos, correction, dst.Length), dst.Length)
      modifies this`readPos, this`buffered, this`pos, dst
      ensures Valid() && p == PlanFor(g, old(buffered), old(pos), correction, dst.Length) && p.Play?
              && pos == old(pos) + p.consumed
      ensures p.shown <= dst.Length && p.start + p.shown <= |stream| && (p.repeatLast ==> p.shown >= g.nc)
      ensures dst[..] == Sound(g, stream, p, dst.Length)
    {
      hide Holds, Padding, HeadsOk, SnapsForward, RepeatsFrames;
      var m := dst.Length;
      p := PlanFor(g, buffered, pos, correction, m);
      if correction > 0 {
        var consume, output := Min(m + g.nc, buffered), Min(m, buffered);
        CopyThenZero(dst, output);
        Skip(consume);
      } else if correction < 0 {
        var kept := Min(Max(m - g.nc, g.nc), buffered);
        CopyFromRing(dst, kept);
        RepeatLast(dst, kept);
        Skip(kept);
      } else {
        var n := Min(m, buffered);
        CopyThenZero(dst, n);
        Skip(n);
      }
    }

    method CopyThenZero(dst: array<real>, n: nat)
      requires Valid() && dst != data && n <= buffered && n <= dst.Length
      modifies dst
      ensures dst[..] == stream[pos..pos + n] + Padding(stream[pos..pos + n], g.nc, false, dst.Length - n)
    {
      hide Holds, Padding, HeadsOk, SnapsForward, RepeatsFrames;
      CopyFromRing(dst, n);
      Zero(dst, n);
    }

    method Read(dst: array<real>) returns (audible: bool)
      requires Valid() && dst != data
      requires dst.Length > 0 ==> Fits(ReadStep(g, |stream|, View(), dst.Length).0, dst.Length)
      modifies this, dst
      ensures Valid() && stream == old(stream)
      ensures dst.Length == 0 ==> audible && View() == old(View())
      ensures dst.Length > 0 ==>
                var (p, n) := ReadStep(g, |stream|, old(View()), dst.Length);
                && View() == n && audible == p.Play?
                && (p.Play? ==>
                      p.shown <= dst.Length && p.start + p.shown <= |stream| && (p.repeatLast ==> p.shown >= g.nc))
                && dst[..] == Sound(g, stream, p, dst.Length)
    {
      hide Holds, HeadsOk, Sound, PlanFor, Correction, Snapped, Padding, Level, SnapsForward, RepeatsFrames;
      if dst.Length == 0 { return true; }
      assert buffered == |stream| - pos;
      if !playing {
        if Level(buffered, g.nc) < g.targetLow {
          Silent(dst);
          return false;
        }
        playing, correctionCounter := true, 0;
      }
      audible := PlayOn(dst);
    }

    /** A Read in the playing state: snap, underrun check, correction, copy. */
    method PlayOn(dst: array<real>) returns (audible: bool)
      requires Valid() && dst != data && dst.Length > 0 && playing
      requires Fits(ReadStep(g, |stream|, View(), dst.Length).0, dst.Length)
      modifies this, dst
      ensures Valid() && stream == old(stream)
      ensures var (p, n) := ReadStep(g, |stream|, old(View()), dst.Length);
              && View() == n && audible == p.Play?
              && (p.Play? ==>
                    p.shown <= dst.Length && p.start + p.shown <= |stream| && (p.repeatLast ==> p.shown >= g.nc))
              && dst[..] == Sound(g, stream, p, dst.Length)
    {
      hide Holds, HeadsOk, Sound, PlanFor, Correction, Snapped, Padding, Level, SnapsForward, RepeatsFrames;
      SnapBack();
      assert buffered == |stream| - pos;
      var level := Level(buffered, g.nc);
      if level < g.minSamples {
        playing := false;
        underrunCount := underrunCount + 1;
        Silent(dst);
        return false;
      }
      var correction := Correction(g, level, correctionCounter);
      if correction < 0 { InsertFindsAFrame(g, buffered, correctionCounter); }
      correctionCounter := if correctionCounter + 1 < g.interval then correctionCounter + 1 else 0;
      ghost var p := Show(dst, correction);
      samplesDropped := samplesDropped + Max(correction, 0);
      samplesInserted := samplesInserted + Max(-correction, 0);
      audible := true;
    }

    method Silent(dst: array<real>)
      requires dst != data && g.nc > 0
      modifies dst
      ensures dst[..] == Sound(g, stream, Silence, dst.Length)
    {
      Zero(dst, 0);
    }

    /** The overrun snap. */
    method SnapBack()
      requires Valid()
      modifies this`readPos, this`buffered, this`pos, this`overrunCount
      ensures Valid() && View() == Snapped(g, |stream|, old(View()))
    {
      SnapMovesForward(g, |stream|, View());
      if Level(buffered, g.nc) > g.maxSamples {
        MulMono(0, g.targetCentre, g.nc);
        Skip(buffered - g.targetCentre * g.nc);
        overrunCount := overrunCount + 1;
      }
    }
  }
}
