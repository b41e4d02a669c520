/**
 * The sequential jitter buffer over its ring, refining an append-only stream of frames: Write appends,
 * and every Read emits exactly what the plan of JitterReader says about the stream.
 */
module JitterBuffer {
  import opened Common
  import opened RingArithmetic
  import opened RingStorage
  import opened JitterReader

  /** One sample per channel. */
  type Frame = seq<real>

  function SilentFrame(nc: nat): Frame { seq(nc, _ => 0.0) }

  /** The per-channel average a splice puts at the seam. */
  function Mix(a: Frame, b: Frame): Frame
    requires |a| == |b|
  {
    seq(|a|, c requires 0 <= c < |a| => (a[c] + b[c]) * 0.5)
  }

  predicate Uniform(frames: seq<Frame>, nc: nat) {
    forall i :: 0 <= i < |frames| ==> |frames[i]| == nc
  }

  /** What a Read emits, in terms of the stream alone. */
  function Sound(stream: seq<Frame>, p: Plan, n: nat, nc: nat): seq<Frame>
    requires Uniform(stream, nc) && n > 0
    requires p.Audible() ==> 0 <= p.start && TouchedEnd(p, n) <= |stream|
    requires p.action.Insert? ==> n >= 2
  {
    var s := p.start;
    match p.action
    case Plain => stream[s..s + n]
    case Drop => stream[s..s + n - 1] + [Mix(stream[s + n - 1], stream[s + n])]
    case Insert => stream[s..s + n - 1] + [Mix(stream[s + n - 2], stream[s + n - 1])]
    case _ => seq(n, _ => SilentFrame(nc))
  }

  /** Each channel of the seam lies as far from the one frame as from the other. */
  lemma MixIsTheMidpoint(a: Frame, b: Frame, c: nat)
    requires |a| == |b| && c < |a|
    ensures |Mix(a, b)| == |a| && Mix(a, b)[c] - a[c] == b[c] - Mix(a, b)[c]
  {
  }

  /**
   * What is heard, frame by frame: the stream from the plan's start on, but for the last frame of a splice, which lies
   * halfway between the frame it would have been and the one next to the cut.
   */
  lemma SoundFollowsTheStream(stream: seq<Frame>, p: Plan, n: nat, nc: nat, k: nat, c: nat)
    requires Uniform(stream, nc) && n > 0 && p.Audible() && 0 <= p.start && TouchedEnd(p, n) <= |stream|
    requires (p.action.Insert? ==> n >= 2) && k < n && c < nc
    ensures var s, sound := p.start, Sound(stream, p, n, nc);
            && |sound| == n && |sound[k]| == nc
            && (k < n - 1 || p.Consumed(n) == n ==> sound[k] == stream[s + k])
            && (p.Consumed(n) == n + 1 ==>
                  sound[n - 1][c] - stream[s + n - 1][c] == stream[s + n][c] - sound[n - 1][c])
            && (p.Consumed(n) == n - 1 ==>
                  sound[n - 1][c] - stream[s + n - 2][c] == stream[s + n - 1][c] - sound[n - 1][c])
  {
    hide Mix;
    match p.action
    case Drop => Seam(stream, p.start, n, nc, p.start + n - 1, k, c);
    case Insert => Seam(stream, p.start, n, nc, p.start + n - 2, k, c);
    case Plain =>
  }

  /** A piece of the stream with its last frame replaced by the mix of the frames at and at + 1. */
  lemma Seam(stream: seq<Frame>, s: nat, n: nat, nc: nat, at: nat, k: nat, c: nat)
    requires Uniform(stream, nc) && n > 0 && s + n - 1 <= |stream| && at + 1 < |stream| && k < n && c < nc
    ensures |stream[at]| == |stream[at + 1]| == nc
    ensures var sound := stream[s..s + n - 1] + [Mix(stream[at], stream[at + 1])];
            && |sound| == n && |sound[k]| == nc && (k < n - 1 ==> sound[k] == stream[s + k])
            && sound[n - 1][c] - stream[at][c] == stream[at + 1][c] - sound[n - 1][c]
  {
    hide Mix;
    assert |stream[at]| == nc && |stream[at + 1]| == nc;
    MixIsTheMidpoint(stream[at], stream[at + 1], c);
    if k < n - 1 { assert |stream[s + k]| == nc; }
  }

  /** A Read that waits or runs dry is silent on every channel. */
  lemma SilenceIsZero(stream: seq<Frame>, p: Plan, n: nat, nc: nat, k: nat, c: nat)
    requires Uniform(stream, nc) && n > 0 && !p.Audible() && k < n && c < nc
    ensures |Sound(stream, p, n, nc)| == n && |Sound(stream, p, n, nc)[k]| == nc && Sound(stream, p, n, nc)[k][c] == 0.0
  {
  }

  // ------------------------------------------------------------------ the buffer

  class JitterBuffer {
    const g: Geometry
    const data: array<Frame>
    var writePos: int
    var readPos: int
    var currentL: int
    var currentH: int
    var insertCount: nat
    var dropCount: nat
    var readsThisWindow: nat
    var lastWinInserts: nat
    var lastWinDrops: nat
    var statsUnderruns: nat
    var statsOverruns: nat
    var statsLaps: nat
    var statsDropped: nat
    var statsInserted: nat

    /** Every frame ever accepted, clipped writes counting only what was kept. */
    ghost var stream: seq<Frame>

    function ReaderState(): Reader
      reads this
    {
      Reader(readPos, currentL, currentH, insertCount, dropCount, readsThisWindow, lastWinInserts, lastWinDrops,
             statsUnderruns, statsOverruns, statsLaps, statsDropped, statsInserted)
    }

    ghost predicate Valid()
      reads this, data
    {
      && WellFormed(g) && data.Length == g.capacity
      && ReaderOk(g, ReaderState()) && readPos <= writePos && writePos == |stream|
      && Uniform(stream, g.nc) && Uniform(data[..], g.nc)
      && Holds(data[..], stream)
    }

    constructor (cfg: Config)
      requires NewGeometry(cfg).Some?
      ensures fresh(data) && stream == [] && writePos == 0
      ensures Valid() <==> Default(cfg.sampleRate, 48000) > -500
      ensures var b := NewGeometry(cfg).value; g == b.g && ReaderState() == InitReader(b.lInit, b.hInit)
    {
      AcceptedConfigIsWellFormed(cfg);
      var b := NewGeometry(cfg).value;
      g := b.g;
      data := new Frame[b.g.capacity](_ => SilentFrame(b.g.nc));
      writePos, readPos := 0, 0;
      currentL, currentH := b.lInit, b.hInit;
      insertCount, dropCount, readsThisWindow := 0, 0, 0;
      lastWinInserts, lastWinDrops := 0, 0;
      statsUnderruns, statsOverruns, statsLaps, statsDropped, statsInserted := 0, 0, 0, 0, 0;
      stream := [];
    }

    method WriteToRing(src: seq<Frame>, wp: nat)
      requires 0 < data.Length && |src| <= data.Length
      modifies data
      ensures data[..] == Laid(old(data[..]), wp, src)
    {
      CopyAround(data, wp % data.Length, src);
    }

    /** Appends the newest `capacity` frames of src. */
    method Write(src: seq<Frame>)
      requires Valid() && Uniform(src, g.nc)
      modifies this, data
      ensures Valid() && ReaderState() == old(ReaderState())
      ensures stream == old(stream) + src[|src| - Min(|src|, g.capacity)..]
    {
      if |src| == 0 {
        return;
      }
      hide Laid;
      var kept := if |src| > g.capacity then src[|src| - g.capacity..] else src;
      LaidAppends(data[..], stream, kept);
      WriteToRing(kept, writePos);
      stream := stream + kept;
      writePos := writePos + |kept|;
      LaidIsUniform(old(data[..]), |old(stream)|, kept, g.nc);
    }

    method ReadFromRing(dst: array<Frame>, rp: nat, n: nat)
      requires 0 < data.Length && n <= data.Length && n <= dst.Length && dst != data
      modifies dst
      ensures dst[..n] == Fetched(data[..], rp, n) && dst[n..] == old(dst[n..])
    {
      CopyOut(data, rp % data.Length, dst, n);
    }

    method Adapt()
      modifies this`insertCount, this`dropCount, this`readsThisWindow, this`lastWinInserts, this`lastWinDrops,
               this`currentL, this`currentH
      ensures ReaderState() == JitterReader.Adapt(g, old(ReaderState()))
    {
      if g.windowReads <= 0 {
        return;
      }
      readsThisWindow := readsThisWindow + 1;
      if readsThisWindow < g.windowReads {
        return;
      }
      lastWinInserts, lastWinDrops := insertCount, dropCount;
      Decide(insertCount, dropCount);
      insertCount, dropCount, readsThisWindow := 0, 0, 0;
    }

    method Decide(inserts: nat, drops: nat)
      modifies this`currentL, this`currentH
      ensures (currentL, currentH) == JitterReader.Decide(g, old(currentL), old(currentH), inserts, drops)
    {
      if Min(inserts, drops) >= g.widenThreshold {
        if inserts >= g.widenThreshold && currentL < g.lMax {
          currentL := Min(currentL + g.widenStep, g.lMax);
        }
        if drops >= g.widenThreshold && currentH < g.hMax {
          currentH := Min(currentH + g.widenStep, g.hMax);
        }
        return;
      }
      if inserts == 0 && currentL > g.lMin {
        currentL := Max(currentL - g.narrowStep, g.lMin);
      }
      if drops == 0 && currentH > g.hMin {
        currentH := Max(currentH - g.narrowStep, g.hMin);
      }
    }

    method Silence(dst: array<Frame>, ghost p: Plan)
      requires g.nc > 0 && dst.Length > 0 && Uniform(stream, g.nc) && !p.Audible()
      modifies dst
      ensures dst[..] == Sound(stream, p, dst.Length, g.nc)
    {
      for i := 0 to dst.Length
        invariant forall k :: 0 <= k < i ==> dst[k] == SilentFrame(g.nc)
      {
        dst[i] := SilentFrame(g.nc);
      }
    }

    /** The per-channel loop of a splice. */
    method Average(a: Frame, b: Frame) returns (m: Frame)
      requires |a| == |b|
      ensures m == Mix(a, b)
    {
      m := [];
      for c := 0 to |a|
        invariant m == Mix(a, b)[..c]
      {
        m := m + [(a[c] + b[c]) * 0.5];
      }
    }

    /** Frames [rp, rp + n + 1) are held, so the splice below reads what was appended there. */
    ghost predicate HeldFrom(rp: int, end: int)
      reads this, data
    {
      && data.Length > 0 && g.nc > 0 && Holds(data[..], stream) && Uniform(stream, g.nc)
      && 0 <= rp && |stream| - data.Length <= rp <= end <= |stream| && end - rp <= data.Length
    }

    method PlainCopy(dst: array<Frame>, rp: int)
      requires dst != data && HeldFrom(rp, rp + dst.Length)
      modifies dst
      ensures dst[..] == stream[rp..rp + dst.Length]
    {
      FetchedSlices(data[..], stream, rp, dst.Length);
      ReadFromRing(dst, rp, dst.Length);
    }

    /** Consumes one frame more than it plays: the last frame played is mixed with the one skipped. */
    method DropSplice(dst: array<Frame>, rp: int)
      requires dst != data && dst.Length > 0 && HeldFrom(rp, rp + dst.Length + 1)
      modifies dst
      ensures var n := dst.Length;
              dst[..] == stream[rp..rp + n - 1] + [Mix(stream[rp + n - 1], stream[rp + n])]
    {
      hide Fetched;
      var n := dst.Length;
      FetchedSlices(data[..], stream, rp, n);
      ReadFromRing(dst, rp, n);
      assert dst[..] == stream[rp..rp + n];
      var skipped := data[(rp + n) % data.Length];
      assert skipped == stream[rp + n];
      var seam := Average(dst[n - 1], skipped);
      dst[n - 1] := seam;
    }

    /** Plays one frame more than it consumes: the extra frame mixes the last one with the next. */
    method InsertSplice(dst: array<Frame>, rp: int)
      requires dst != data && dst.Length >= 2 && HeldFrom(rp, rp + dst.Length)
      modifies dst
      ensures var n := dst.Length;
              dst[..] == stream[rp..rp + n - 1] + [Mix(stream[rp + n - 2], stream[rp + n - 1])]
    {
      hide Fetched;
      var n := dst.Length;
      FetchedSlices(data[..], stream, rp, n - 1);
      ReadFromRing(dst, rp, n - 1);
      assert dst[..n - 1] == stream[rp..rp + n - 1];
      var peeked := data[(rp + n - 1) % data.Length];
      assert peeked == stream[rp + n - 1] && dst[n - 2] == dst[..n - 1][n - 2];
      var seam := Average(dst[n - 2], peeked);
      dst[n - 1] := seam;
    }

    /** Steps 1 to 3 of a Read: wait for the warm start, or snap on startup, lap and overrun. */
    method Reposition(ghost n: nat) returns (waiting: bool)
      requires WellFormed(g) && InBounds(g, currentL, currentH) && 0 <= readPos <= writePos
      modifies this`readPos, this`statsLaps, this`statsOverruns
      ensures var p := MakePlan(g, old(readPos), writePos, currentL, currentH, n);
              && waiting == p.action.Wait? && readPos == p.start
              && (!waiting ==> p.action == ActionFor(g, writePos - readPos, currentL, currentH, n))
              && statsLaps == old(statsLaps) + (if p.snap.LapSnap? then 1 else 0)
              && statsOverruns == old(statsOverruns) + (if p.snap.OverrunSnap? then 1 else 0)
    {
      var snapTarget, overrunAt := SnapTarget(g, currentL), OverrunAt(g, currentL, currentH);
      // 1. Startup.
      if readPos == 0 {
        if writePos < snapTarget {
          return true;
        }
        readPos := writePos - snapTarget;
      }
      // 2. Lap, or 3. overrun.
      if writePos - readPos >= g.capacity {
        readPos := writePos - snapTarget;
        statsLaps := statsLaps + 1;
      } else if writePos - readPos > overrunAt {
        readPos := writePos - snapTarget;
        statsOverruns := statsOverruns + 1;
      }
      return false;
    }

    /** Step 5 of a Read: play n frames from readPos, splicing when the fill is out of band. */
    method Play(dst: array<Frame>, ghost p: Plan)
      requires dst != data && dst.Length > 0 && WellFormed(g)
      requires HeldFrom(readPos, writePos) && writePos == |stream| && readPos + dst.Length <= writePos
      requires p.start == readPos
      requires p.action == ActionFor(g, writePos - readPos, currentL, currentH, dst.Length)
      modifies dst, this`readPos, this`statsDropped, this`dropCount, this`statsInserted, this`insertCount
      ensures ReaderState() == Settle(old(ReaderState()), p.(snap := NoSnap), dst.Length)
      ensures dst[..] == Sound(stream, p, dst.Length, g.nc)
    {
      var n, rp, fill := dst.Length, readPos, writePos - readPos;
      if fill > DropLine(g, currentL, currentH) && fill >= n + 1 {
        DropSplice(dst, rp);
        readPos := rp + n + 1;
        statsDropped := statsDropped + 1;
        dropCount := dropCount + 1;
      } else if fill < g.floor && n >= 2 {
        InsertSplice(dst, rp);
        readPos := rp + n - 1;
        statsInserted := statsInserted + 1;
        insertCount := insertCount + 1;
      } else {
        PlainCopy(dst, rp);
        readPos := rp + n;
      }
    }

    /** Steps 4 and 5 of a Read: silence on underrun, otherwise play. */
    method Serve(dst: array<Frame>, ghost p: Plan) returns (ok: bool)
      requires dst != data && dst.Length > 0 && WellFormed(g)
      requires Uniform(stream, g.nc) && writePos == |stream| && 0 <= p.start == readPos
      requires p.action == ActionFor(g, writePos - readPos, currentL, currentH, dst.Length)
      requires p.Audible() ==> HeldFrom(readPos, writePos)
      modifies dst, this`readPos, this`statsDropped, this`dropCount, this`statsInserted, this`insertCount,
               this`statsUnderruns
      ensures ok == p.Audible() && (ok ==> 0 <= p.start && TouchedEnd(p, dst.Length) <= |stream|)
      ensures ReaderState() == Settle(old(ReaderState()), p.(snap := NoSnap), dst.Length)
      ensures dst[..] == Sound(stream, p, dst.Length, g.nc)
    {
      hide Holds, Uniform, Sound;
      // 4. Underrun.
      if writePos - readPos < dst.Length {
        Silence(dst, p);
        statsUnderruns := statsUnderruns + 1;
        return false;
      }
      // 5. Playing.
      Play(dst, p);
      ok := true;
    }

    /** What the plan of a Read touches is held, and the reader it leaves is in order. */
    lemma PlanIsHeld(n: nat)
      requires Valid() && n > 0
      ensures InBounds(g, currentL, currentH) && 0 <= readPos
      ensures var p, r := PlanOf(g, ReaderState(), writePos, n), ReadStep(g, ReaderState(), writePos, n);
              && 0 <= p.start && (p.Audible() ==> HeldFrom(p.start, writePos) && TouchedEnd(p, n) <= |stream|)
              && ReaderOk(g, r) && r.rp <= writePos
    {
      hide Holds, Uniform, JitterReader.Adapt, MakePlan;
      PlanIsSafe(g, readPos, writePos, currentL, currentH, n);
      LevelsAreOrdered(g, currentL, currentH);
      ReadStepKeepsReader(g, ReaderState(), writePos, n);
    }

    /** The heads and counters move as ReadStep says and dst receives what Sound says. */
    method Read(dst: array<Frame>) returns (ok: bool)
      requires Valid() && dst != data
      modifies this, dst
      ensures Valid() && stream == old(stream) && writePos == old(writePos)
      ensures ReaderState() == ReadStep(g, old(ReaderState()), writePos, dst.Length)
      ensures dst.Length == 0 ==> ok
      ensures dst.Length > 0 ==>
        var p := PlanOf(g, old(ReaderState()), writePos, dst.Length);
        && ok == p.Audible()
        && 0 <= p.start && (p.Audible() ==> TouchedEnd(p, dst.Length) <= |stream|)
        && dst[..] == Sound(stream, p, dst.Length, g.nc)
    {
      hide Holds, Uniform, Sound, JitterReader.Adapt, MakePlan, OverrunAt, ActionFor, ReaderOk, InBounds, TouchedEnd;
      var n := dst.Length;
      if n == 0 {
        return true;
      }
      ghost var p := PlanOf(g, ReaderState(), writePos, n);
      ghost var settled := Settle(ReaderState(), p, n);
      PlanIsHeld(n);
      var waiting := Reposition(n);
      if waiting {
        Silence(dst, p);
        Adapt();
        return false;
      }
      ok := Serve(dst, p);
      assert ReaderState() == settled;
      Adapt();
    }
  }

  lemma LaidIsUniform(ring: seq<Frame>, wp: nat, src: seq<Frame>, nc: nat)
    requires 0 < |ring| && |src| <= |ring| && Uniform(ring, nc) && Uniform(src, nc)
    ensures Uniform(Laid(ring, wp, src), nc)
  {
  }
}
