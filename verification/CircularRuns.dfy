/**
 * Which configurations of the circular buffer ever snap back: over whole runs of writes and reads, the ones whose snap
 * guard fails and that can start playing above their maximum.
 */
module CircularRuns {
  import opened Common
  import opened RingArithmetic
  import opened CircularBuffer

  predicate Ringed(g: Geometry) { g.nc > 0 && g.capacity > 0 && g.capacity % g.nc == 0 }

  predicate AllWhole(g: Geometry, es: seq<Event>)
    requires g.nc > 0
  {
    forall i :: 0 <= i < |es| ==> WholeFrames(g, es[i])
  }

  lemma OneMoreWhole(g: Geometry, es: seq<Event>, e: Event)
    requires g.nc > 0 && AllWhole(g, es) && WholeFrames(g, e)
    ensures AllWhole(g, es + [e])
  {
  }

  lemma OneFrameIsWhole(g: Geometry)
    requires g.nc > 0
    ensures WholeFrames(g, Read(g.nc)) && WholeFrames(g, Quiet(g.nc))
  {
    WholeProduct(1, g.nc);
  }

  /** The run of the events, None from the Read on whose snap would set the reader back. */
  function RunTo(g: Geometry, es: seq<Event>): (o: Option<Run>)
    requires Ringed(g)
    ensures o.Some? ==> Within(g, |o.value.stream|, o.value.reader)
  {
    if es == [] then Some(FIRST)
    else
      match RunTo(g, es[..|es| - 1])
      case None => None
      case Some(run) =>
        var e := es[|es| - 1];
        if e.Read? && e.m > 0 && MovesBack(g, |run.stream|, run.reader) then None
        else
          StepStaysWithin(g, run, e);
          Some(Step(g, run, e))
  }

  lemma ReadStaysWithin(g: Geometry, total: nat, r: Reader, m: nat)
    requires Readable(g, total, r) && m > 0
    ensures var n := ReadStep(g, total, r, m).1; r.pos <= n.pos <= total
  {
    if Level(total - r.pos, g.nc) > g.maxSamples && (r.playing || Level(total - r.pos, g.nc) >= g.targetLow) {
      SnapStays(g, total - r.pos);
    }
    hide Level, Correction;
  }

  lemma StepStaysWithin(g: Geometry, run: Run, e: Event)
    requires Ringed(g) && Within(g, |run.stream|, run.reader)
    requires e.Read? && e.m > 0 ==> Readable(g, |run.stream|, run.reader)
    ensures var n := Step(g, run, e); Within(g, |n.stream|, n.reader)
  {
    if e.Read? && e.m > 0 { ReadStaysWithin(g, |run.stream|, run.reader, e.m); }
    hide ReadStep, Readable;
  }

  /** The ring in whole samples per channel. */
  function Frames(g: Geometry): int
    requires g.nc > 0
  {
    g.capacity / g.nc
  }

  /** Such a buffer falls silent with every snap, and a fill that lets it play triggers one. */
  predicate AlwaysFallsSilent(g: Geometry)
    requires g.nc > 0
  {
    0 <= g.targetCentre <= Min(g.targetLow, Frames(g)) && g.targetCentre < g.minSamples
  }

  predicate MaySnapBack(g: Geometry)
    requires g.nc > 0
  {
    !SnapsForward(g) && g.targetLow <= Frames(g) && !AlwaysFallsSilent(g)
  }

  // ------------------------------------------------------------------ never otherwise

  /** Where the snap guard fails but the condition does not hold, no Read leaves the buffer playing. */
  lemma NeverPlays(g: Geometry, total: nat, r: Reader)
    requires Ringed(g) && !SnapsForward(g) && !MaySnapBack(g) && Within(g, total, r) && !r.playing
    ensures !MovesBack(g, total, r)
    ensures forall m: nat :: m > 0 ==> !ReadStep(g, total, r, m).1.playing
  {
    LevelMono(total - r.pos, g.capacity, g.nc);
    if Level(total - r.pos, g.nc) >= g.targetLow {
      MulMono(g.targetCentre, Level(total - r.pos, g.nc), g.nc);
      MulMono(0, g.targetCentre, g.nc);
      LevelOfFrames(g.targetCentre, g.nc);
    }
    hide Level, PlanFor, Correction;
  }

  lemma {:induction false} RunNeverMovesBack(g: Geometry, es: seq<Event>)
    requires Ringed(g) && !MaySnapBack(g)
    ensures RunTo(g, es).Some? && (!SnapsForward(g) ==> !RunTo(g, es).value.reader.playing)
  {
    if es != [] {
      RunNeverMovesBack(g, es[..|es| - 1]);
      var run := RunTo(g, es[..|es| - 1]).value;
      if SnapsForward(g) {
        GuardedNeverMovesBack(g, |run.stream|, run.reader);
      } else {
        NeverPlays(g, |run.stream|, run.reader);
      }
      hide ReadStep, SnapsForward, MaySnapBack, MovesBack, Ringed;
    }
  }

  lemma GuardedNeverMovesBack(g: Geometry, total: nat, r: Reader)
    requires Ringed(g) && SnapsForward(g) && Within(g, total, r)
    ensures !MovesBack(g, total, r)
  {
    if Level(total - r.pos, g.nc) > g.maxSamples { SnapLands(g, total - r.pos); }
    hide SnapsForward, Level;
  }

  // ------------------------------------------------------------------ and there it happens

  function Quiet(n: nat): Event { Write(seq(n, _ => 0.0)) }

  function Fill(run: Run): int { |run.stream| - run.reader.pos }

  /** Writing what still fits only adds to the fill. */
  lemma QuietFills(g: Geometry, es: seq<Event>, n: nat)
    requires Ringed(g) && RunTo(g, es).Some? && Fill(RunTo(g, es).value) + n <= g.capacity
    ensures var before, o := RunTo(g, es).value, RunTo(g, es + [Quiet(n)]);
            o.Some? && Fill(o.value) == Fill(before) + n && o.value.reader == before.reader
  {
    assert (es + [Quiet(n)])[..|es|] == es;
  }

  lemma ReadEnds(g: Geometry, es: seq<Event>, m: nat)
    requires Ringed(g) && RunTo(g, es).Some? && m > 0
    requires MovesBack(g, |RunTo(g, es).value.stream|, RunTo(g, es).value.reader)
    ensures RunTo(g, es + [Read(m)]).None?
  {
    assert (es + [Read(m)])[..|es|] == es;
  }

  lemma ReadRuns(g: Geometry, es: seq<Event>, m: nat)
    requires Ringed(g) && RunTo(g, es).Some? && m > 0
    requires !MovesBack(g, |RunTo(g, es).value.stream|, RunTo(g, es).value.reader)
    ensures var before, o := RunTo(g, es).value, RunTo(g, es + [Read(m)]);
            && o.Some? && o.value.stream == before.stream
            && o.value.reader == ReadStep(g, |before.stream|, before.reader, m).1
  {
    assert (es + [Read(m)])[..|es|] == es;
    hide ReadStep, MovesBack;
  }

  /** So many whole samples, in floats. */
  function Floats(g: Geometry, frames: int): int { frames * g.nc }

  lemma FloatsFit(g: Geometry, frames: int)
    requires Ringed(g) && 0 <= frames <= Frames(g)
    ensures 0 <= Floats(g, frames) <= g.capacity && Floats(g, Frames(g)) == g.capacity
    ensures Whole(Floats(g, frames), g.nc)
  {
    MulMono(frames, Frames(g), g.nc);
    MulMono(0, frames, g.nc);
    WholeProduct(frames, g.nc);
  }

  /** From the start, a fill of so many samples per channel. */
  lemma Filled(g: Geometry, frames: nat) returns (es: seq<Event>)
    requires Ringed(g) && frames <= Frames(g)
    ensures RunTo(g, es).Some? && AllWhole(g, es)
    ensures var run := RunTo(g, es).value; run.reader == START && Fill(run) == Floats(g, frames)
  {
    FloatsFit(g, frames);
    es := [Quiet(Floats(g, frames))];
    assert [] + es == es;
    assert RunTo(g, []) == Some(FIRST);
    hide RunTo, Floats, Frames, Whole;
    QuietFills(g, [], Floats(g, frames));
  }

  /** A fill that starts the buffer, exceeds the maximum and lies below the target sends the first Read back. */
  lemma FirstReadGoesBack(g: Geometry, frames: nat) returns (es: seq<Event>)
    requires Ringed(g) && frames <= Frames(g) && frames >= g.targetLow && frames > g.maxSamples
    requires g.targetCentre < 0 || g.targetCentre > frames
    ensures RunTo(g, es).None? && AllWhole(g, es)
  {
    hide RunTo, MovesBack, Floats, AllWhole, WholeFrames, Frames;
    es := Filled(g, frames);
    GoesBackAt(g, RunTo(g, es).value, frames);
    OneFrameIsWhole(g);
    ReadEnds(g, es, g.nc);
    OneMoreWhole(g, es, Read(g.nc));
    es := es + [Read(g.nc)];
  }

  lemma GoesBackAt(g: Geometry, run: Run, frames: nat)
    requires g.nc > 0 && Fill(run) == Floats(g, frames) && Within(g, |run.stream|, run.reader)
    requires run.reader.playing || frames >= g.targetLow
    requires frames > g.maxSamples && (g.targetCentre < 0 || g.targetCentre > frames)
    ensures MovesBack(g, |run.stream|, run.reader)
  {
    LevelOfFrames(frames, g.nc);
    BeyondFrames(g.targetCentre, frames, g.nc);
    hide Level;
  }

  /** A playing buffer one or two samples below the target. */
  predicate JustBelow(g: Geometry, total: int, r: Reader) {
    && r.playing
    && (total - r.pos == Floats(g, g.targetCentre - 1)
        || (g.targetCentre >= 2 && total - r.pos == Floats(g, g.targetCentre - 2)))
  }

  /** The first Read of a full ring snaps to the target and plays on from there. */
  lemma FirstReadPlays(g: Geometry)
    requires Ringed(g) && g.targetLow <= Frames(g) && Frames(g) > g.maxSamples
    requires 0 < g.targetCentre <= Frames(g) && g.targetCentre >= g.minSamples
    ensures !MovesBack(g, g.capacity, START) && JustBelow(g, g.capacity, ReadStep(g, g.capacity, START, g.nc).1)
  {
    var target := Floats(g, g.targetCentre);
    FloatsFit(g, g.targetCentre);
    FloatsFit(g, 1);
    TargetLess(g);
    LevelOfFrames(g.targetCentre, g.nc);
    assert Level(g.capacity, g.nc) == Frames(g);
    hide Level, Floats, Frames;
    var started := START.(playing := true);
    assert Snapped(g, g.capacity, started).pos == g.capacity - target by { TargetIs(g); }
    hide Snapped, Correction;
  }

  lemma TargetIs(g: Geometry)
    ensures Floats(g, g.targetCentre) == g.targetCentre * g.nc
  {
  }

  lemma TargetLess(g: Geometry)
    requires g.nc > 0 && g.targetCentre > 0
    ensures Floats(g, g.targetCentre - 1) == Floats(g, g.targetCentre) - g.nc >= 0
    ensures Floats(g, g.targetCentre - 2) == Floats(g, g.targetCentre) - 2 * g.nc
    ensures g.targetCentre >= 2 ==> Floats(g, g.targetCentre - 2) >= 0
    ensures g.targetCentre < 2 ==> Floats(g, g.targetCentre) == g.nc
  {
    MulMono(0, g.targetCentre - 1, g.nc);
    if g.targetCentre >= 2 { MulMono(0, g.targetCentre - 2, g.nc); }
  }

  /** One sample below the target again, still above the maximum: the second Read goes back. */
  lemma SecondReadGoesBack(g: Geometry) returns (es: seq<Event>)
    requires Ringed(g) && g.targetLow <= Frames(g) && g.targetCentre >= g.minSamples
    requires 0 < g.targetCentre <= Frames(g) && g.targetCentre - 1 > g.maxSamples
    ensures RunTo(g, es).None? && AllWhole(g, es)
  {
    FloatsFit(g, 0);
    hide RunTo, AllWhole, MovesBack, WholeFrames, ReadStep, Floats, Frames, JustBelow;
    es := Filled(g, Frames(g));
    FirstReadPlays(g);
    OneFrameIsWhole(g);
    ReadRuns(g, es, g.nc);
    OneMoreWhole(g, es, Read(g.nc));
    es := ToBelowTheTarget(g, es + [Read(g.nc)]);
    ReadEnds(g, es, g.nc);
    OneMoreWhole(g, es, Read(g.nc));
    es := es + [Read(g.nc)];
  }

  lemma ToBelowTheTarget(g: Geometry, before: seq<Event>) returns (es: seq<Event>)
    requires Ringed(g) && RunTo(g, before).Some? && AllWhole(g, before)
    requires 0 < g.targetCentre <= Frames(g) && g.targetCentre - 1 > g.maxSamples
    requires JustBelow(g, |RunTo(g, before).value.stream|, RunTo(g, before).value.reader)
    ensures RunTo(g, es).Some? && AllWhole(g, es)
    ensures MovesBack(g, |RunTo(g, es).value.stream|, RunTo(g, es).value.reader)
  {
    FloatsFit(g, g.targetCentre - 1);
    TargetLess(g);
    OneFrameIsWhole(g);
    hide RunTo, MovesBack, Floats, Frames, AllWhole, WholeFrames, Whole;
    es := before;
    if Fill(RunTo(g, before).value) != Floats(g, g.targetCentre - 1) {
      QuietFills(g, before, g.nc);
      OneMoreWhole(g, before, Quiet(g.nc));
      es := before + [Quiet(g.nc)];
    }
    GoesBackAt(g, RunTo(g, es).value, g.targetCentre - 1);
  }

  lemma GoesBackSomewhere(g: Geometry) returns (es: seq<Event>)
    requires Ringed(g) && MaySnapBack(g)
    ensures RunTo(g, es).None? && AllWhole(g, es)
  {
    var least := Max(g.maxSamples + 1, 0);
    FloatsFit(g, 0);
    assert 0 <= Frames(g) && !SnapsForward(g) && g.targetLow <= Frames(g);
    assert least <= Frames(g) && (g.targetCentre < 0 || g.targetCentre > least);
    hide RunTo, AllWhole, Floats;
    if g.targetCentre < 0 || g.targetCentre > Frames(g) {
      es := FirstReadGoesBack(g, Frames(g));
    } else if Max(least, g.targetLow) < g.targetCentre {
      es := FirstReadGoesBack(g, Max(least, g.targetLow));
    } else {
      es := SecondReadGoesBack(g);
    }
  }

  /**
   * Some run of whole-frame writes and reads snaps back if and only if the snap guard fails, the ring can hold the fill
   * that starts the buffer, and a snap does not leave it silent below its minimum every time.
   */
  lemma SnapsBackExactly(g: Geometry)
    requires Ringed(g)
    ensures (exists es :: AllWhole(g, es) && RunTo(g, es).None?) <==> MaySnapBack(g)
  {
    hide RunTo, MaySnapBack, WholeFrames;
    if MaySnapBack(g) {
      var es := GoesBackSomewhere(g);
    } else {
      forall es | AllWhole(g, es)
        ensures RunTo(g, es).Some?
      {
        RunNeverMovesBack(g, es);
      }
    }
  }
}
