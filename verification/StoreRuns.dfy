/**
 * When the cache agrees with a plain last-write-wins map. A write that has to advance the head can hide
 * ops that were never compacted; this module says exactly which, and proves agreement over every run in
 * which none of them was still the latest for its key.
 */
module StoreRuns {
  import opened Common
  import opened RingArithmetic
  import opened StoreModel

  /** The segments the ring still holds carry their own epoch; the covered head's cursor never moves back. */
  ghost predicate Inv(s: Store) {
    && Shaped(s)
    && (forall i: nat :: i <= s.head && s.head - |s.ring| < i ==> Current(s, i))
    && (HeadCovered(s) ==> s.snap.headCursor <= Filled(s, s.head))
  }

  predicate HeadFull(s: Store)
    requires |s.ring| > 0 && s.head >= 0
  {
    SegAt(s, s.head).cursor >= s.segCap
  }

  /** The oldest segment still in the ring, which the next advance takes over. */
  function Oldest(s: Store): int { s.head + 1 - |s.ring| }

  /** The ops the next write hides from every later read and compaction. */
  function Lost(s: Store): seq<Op>
    requires Shaped(s)
  {
    if !HeadFull(s) then []
    else if HeadCovered(s) then HeadExtra(s)
    else if Oldest(s) >= Start(s) then SegOps(s, Oldest(s), 0)
    else []
  }

  /** The uncompacted ops the next write leaves visible. */
  function Retained(s: Store): seq<Op>
    requires Shaped(s)
  {
    if !HeadFull(s) then Uncompacted(s)
    else if HeadCovered(s) then []
    else if Oldest(s) >= Start(s) then RangeOps(s, Oldest(s) + 1, s.head)
    else Uncompacted(s)
  }

  // ------------------------------------------------------------------ the ring under a write

  /** A segment a whole ring behind has lost its place to a later one. */
  lemma PassedSegmentIsEmpty(s: Store, i: nat)
    requires Inv(s) && i <= s.head - |s.ring|
    ensures SegOps(s, i, 0) == []
    decreases s.head - i
  {
    NotCurrent(s, i);
  }

  lemma NotCurrent(s: Store, i: nat)
    requires Inv(s) && i <= s.head - |s.ring|
    ensures !Current(s, i)
    decreases s.head - i
  {
    var c, j := |s.ring|, i + |s.ring|;
    PreviousPass(j, c);
    if j <= s.head - c {
      LaterPass(s, j);
    } else {
      assert Current(s, j);
    }
  }

  lemma LaterPass(s: Store, i: nat)
    requires Inv(s) && i <= s.head
    ensures SegAt(s, i).epoch >= i / |s.ring|
    decreases s.head - i
  {
    if i <= s.head - |s.ring| {
      PreviousPass(i + |s.ring|, |s.ring|);
      LaterPass(s, i + |s.ring|);
    } else {
      assert Current(s, i);
    }
  }

  lemma {:induction false} PassedRangeIsEmpty(s: Store, lo: nat, hi: int)
    requires Inv(s) && hi <= s.head - |s.ring|
    ensures RangeOps(s, lo, hi) == []
    decreases hi - lo
  {
    if lo <= hi {
      PassedRangeIsEmpty(s, lo, hi - 1);
      PassedSegmentIsEmpty(s, hi);
    }
  }

  lemma {:induction false} RangeSplits(s: Store, lo: nat, mid: nat, hi: int)
    requires Shaped(s) && lo <= mid <= hi + 1
    ensures RangeOps(s, lo, hi) == RangeOps(s, lo, mid - 1) + RangeOps(s, mid, hi)
    decreases hi - mid
  {
    if mid <= hi {
      RangeSplits(s, lo, mid, hi - 1);
    }
  }

  /** What is uncompacted is exactly what the next write hides, then what it keeps. */
  lemma LostThenRetained(s: Store)
    requires Inv(s)
    ensures Uncompacted(s) == Lost(s) + Retained(s)
  {
    if HeadFull(s) && !HeadCovered(s) && Oldest(s) >= Start(s) {
      OldestComesFirst(s);
      hide RangeOps, SegOps, Inv;
    }
    hide SegOps, Inv;
  }

  lemma OldestComesFirst(s: Store)
    requires Inv(s) && Oldest(s) >= Start(s)
    ensures RangeOps(s, Start(s), s.head) == SegOps(s, Oldest(s), 0) + RangeOps(s, Oldest(s) + 1, s.head)
  {
    hide SegOps;
    RangeSplits(s, Start(s), Oldest(s), s.head);
    RangeSplits(s, Oldest(s), Oldest(s) + 1, s.head);
    PassedRangeIsEmpty(s, Start(s), Oldest(s) - 1);
    assert RangeOps(s, Oldest(s), Oldest(s)) == RangeOps(s, Oldest(s), Oldest(s) - 1) + SegOps(s, Oldest(s), 0);
  }

  /** Ranges whose segments are the same in two stores hold the same ops. */
  lemma {:induction false} SameRange(s: Store, t: Store, lo: nat, hi: int)
    requires Shaped(s) && Shaped(t)
    requires forall i: nat :: lo <= i <= hi ==> SegOps(s, i, 0) == SegOps(t, i, 0)
    ensures RangeOps(s, lo, hi) == RangeOps(t, lo, hi)
    decreases hi - lo
  {
    if lo <= hi {
      SameRange(s, t, lo, hi - 1);
    }
  }

  lemma PutKeepsInv(s: Store, op: Op)
    requires Inv(s) && !HeadFull(s)
    ensures Inv(Put(s, op)) && Filled(Put(s, op), s.head) == Filled(s, s.head) + 1
  {
    var t := Put(s, op);
    forall i: nat | i <= s.head && s.head - |s.ring| < i
      ensures Current(t, i)
    {
      assert Current(s, i);
    }
  }

  lemma PutHead(s: Store, op: Op, lo: nat)
    requires Inv(s) && !HeadFull(s) && lo <= Filled(s, s.head)
    ensures Shaped(Put(s, op)) && SegOps(Put(s, op), s.head, lo) == SegOps(s, s.head, lo) + [op]
  {
    PutKeepsInv(s, op);
    var t := Put(s, op);
    assert Current(s, s.head) && Current(t, s.head);
    var before := SegAt(s, s.head).slots[lo..Filled(s, s.head)];
    var after := SegAt(t, s.head).slots[lo..Filled(t, s.head)];
    assert after == before + [Some(op)];
    assert after[..|after| - 1] == before;
  }

  lemma PutOther(s: Store, op: Op, i: nat)
    requires Inv(s) && !HeadFull(s) && i < s.head
    ensures Shaped(Put(s, op)) && SegOps(Put(s, op), i, 0) == SegOps(s, i, 0)
  {
    PutKeepsInv(s, op);
    if i <= s.head - |s.ring| {
      PassedSegmentIsEmpty(s, i);
      PassedSegmentIsEmpty(Put(s, op), i);
    } else {
      Distinct(i, s.head, |s.ring|);
      assert SegAt(Put(s, op), i) == SegAt(s, i);
    }
  }

  lemma PutAppends(s: Store, op: Op)
    requires Inv(s) && !HeadFull(s)
    ensures Inv(Put(s, op)) && Uncompacted(Put(s, op)) == Uncompacted(s) + [op]
  {
    hide SegOps, Current, Filled;
    var t := Put(s, op);
    PutKeepsInv(s, op);
    if HeadCovered(s) {
      PutHead(s, op, s.snap.headCursor);
    } else {
      PutHead(s, op, 0);
      forall i: nat | Start(s) <= i <= s.head - 1
        ensures SegOps(s, i, 0) == SegOps(t, i, 0)
      {
        PutOther(s, op, i);
      }
      SameRange(s, t, Start(s), s.head - 1);
    }
  }

  /** After an advance the new head is empty, the place it took is gone, and every other segment is intact. */
  lemma AdvanceSegments(s: Store)
    requires Inv(s) && HeadFull(s)
    ensures var t := AdvanceHead(s);
            && Inv(t) && SegOps(t, t.head, 0) == []
            && forall i: nat :: i <= s.head && Oldest(s) < i ==> SegOps(t, i, 0) == SegOps(s, i, 0)
  {
    var t, c := AdvanceHead(s), |s.ring|;
    forall i: nat | i <= s.head && Oldest(s) < i
      ensures Current(t, i) && SegOps(t, i, 0) == SegOps(s, i, 0)
    {
      assert Current(s, i);
      Distinct(i, s.head + 1, c);
      if i < s.head {
        Distinct(i, s.head, c);
      }
    }
    assert SegAt(t, t.head).slots[0..Filled(t, t.head)] == [];
  }

  lemma AdvanceKeepsRange(s: Store, from: nat)
    requires Inv(s) && HeadFull(s) && Oldest(s) < from <= s.head + 1
    ensures Inv(AdvanceHead(s)) && RangeOps(AdvanceHead(s), from, s.head + 1) == RangeOps(s, from, s.head)
  {
    var t := AdvanceHead(s);
    AdvanceSegments(s);
    hide SegOps, Current, AdvanceHead;
    SameRange(s, t, from, s.head);
  }

  lemma FullHeadOpens(s: Store)
    requires Inv(s) && HeadFull(s)
    ensures Shaped(Overrun(s)) && Shaped(AdvanceHead(s)) && !HeadFull(AdvanceHead(s))
  {
  }

  lemma AdvanceMovesHead(s: Store)
    requires Shaped(s)
    ensures AdvanceHead(s).head == s.head + 1 && AdvanceHead(s).snap == s.snap && |AdvanceHead(s).ring| == |s.ring|
  {
  }

  lemma EmptyRange(s: Store, lo: nat, hi: int)
    requires Shaped(s) && hi < lo
    ensures RangeOps(s, lo, hi) == []
  {
  }

  /** Taking over the oldest segment's place: everything up to it is gone from the new range. */
  lemma ReuseDropsOldest(s: Store)
    requires Inv(s) && HeadFull(s) && Start(s) <= Oldest(s)
    ensures Inv(AdvanceHead(s))
    ensures RangeOps(AdvanceHead(s), Start(s), s.head + 1) == RangeOps(s, Oldest(s) + 1, s.head)
  {
    hide SegOps, Current, Filled, OpenNext, Overrun;
    var t := AdvanceHead(s);
    AdvanceMovesHead(s);
    AdvanceKeepsRange(s, Oldest(s) + 1);
    RangeSplits(t, Start(s), Oldest(s) + 1, t.head);
    PassedRangeIsEmpty(t, Start(s), Oldest(s));
  }

  lemma AdvanceDropsLost(s: Store)
    requires Inv(s) && HeadFull(s)
    ensures Inv(AdvanceHead(s)) && Uncompacted(AdvanceHead(s)) == Retained(s)
  {
    hide SegOps, Current, Filled, OpenNext, Overrun, RangeOps;
    var t := AdvanceHead(s);
    FullHeadOpens(s);
    AdvanceMovesHead(s);
    if HeadCovered(s) {
      AdvanceKeepsRange(s, s.head + 1);
      EmptyRange(s, s.head + 1, s.head);
    } else if Oldest(s) >= Start(s) {
      ReuseDropsOldest(s);
    } else {
      AdvanceKeepsRange(s, Start(s));
    }
  }

  /** Every write, advancing or not, turns the uncompacted ops into Retained followed by the new op. */
  lemma WriteKeepsRetained(s: Store, op: Op)
    requires Inv(s)
    ensures Inv(WriteOp(s, op)) && Uncompacted(WriteOp(s, op)) == Retained(s) + [op]
    ensures WriteOp(s, op).snap == s.snap
  {
    if HeadFull(s) {
      AdvanceDropsLost(s);
      PutAppends(AdvanceHead(s), op);
    } else {
      PutAppends(s, op);
    }
  }

  // ------------------------------------------------------------------ one write against the view

  /** The new id is above every id the store still holds for that key. */
  ghost predicate Fresh(s: Store, op: Op)
    requires Shaped(s)
  {
    Newest(s.snap.entries, Uncompacted(s), op)
  }

  /** No op the write hides is still the latest for a key the write leaves alone. */
  ghost predicate Harmless(s: Store, op: Op)
    requires Shaped(s)
  {
    forall i :: 0 <= i < |Lost(s)| ==> KeyOf(Lost(s)[i]) == KeyOf(op) || HasKey(Retained(s), KeyOf(Lost(s)[i]))
  }

  /** No op of the list, and nothing in the map, has the key with an id as high. */
  ghost predicate Newest(m: map<string, Op>, ops: seq<Op>, op: Op) {
    && (KeyOf(op) in m ==> m[KeyOf(op)].opId < op.opId)
    && forall i :: 0 <= i < |ops| && KeyOf(ops[i]) == KeyOf(op) ==> ops[i].opId < op.opId
  }

  lemma OrderedReplacing(m: map<string, Op>, lost: seq<Op>, kept: seq<Op>, op: Op)
    requires Ordered(m, lost + kept) && Newest(m, lost + kept, op)
    ensures Ordered(m, kept) && Ordered(m, kept + [op])
  {
    hide KeyOf;
    forall i | 0 <= i < |kept|
      ensures kept[i] == (lost + kept)[|lost| + i]
    {
    }
  }

  lemma OrderedAfterWrite(s: Store, op: Op)
    requires Inv(s) && Ordered(s.snap.entries, Uncompacted(s)) && Fresh(s, op)
    ensures Ordered(s.snap.entries, Retained(s)) && Ordered(s.snap.entries, Retained(s) + [op])
  {
    hide Uncompacted, Lost, Retained, Ordered;
    LostThenRetained(s);
    OrderedReplacing(s.snap.entries, Lost(s), Retained(s), op);
  }

  lemma ViewAfterWrite(s: Store, op: Op)
    requires Inv(s) && Ordered(s.snap.entries, Uncompacted(s)) && Fresh(s, op)
    ensures Inv(WriteOp(s, op))
    ensures View(s) == LastWins(LastWins(s.snap.entries, Lost(s)), Retained(s))
    ensures View(WriteOp(s, op)) == LastWins(s.snap.entries, Retained(s))[KeyOf(op) := op]
  {
    hide Lost, Retained, Uncompacted, KeyOf, Ordered;
    WriteKeepsRetained(s, op);
    LostThenRetained(s);
    OrderedAfterWrite(s, op);
    MergeIsLastWins(s.snap.entries, Uncompacted(s));
    LastWinsConcat(s.snap.entries, Lost(s), Retained(s));
    MergeIsLastWins(s.snap.entries, Retained(s) + [op]);
    assert (Retained(s) + [op])[..|Retained(s) + [op]| - 1] == Retained(s);
  }

  lemma MergeSingle(m: map<string, Op>, op: Op)
    ensures Merge(m, [op]) == MergeOne(m, op)
  {
    assert Merge(m, [op]) == MergeOne(Merge(m, []), op);
  }

  /** A key whose latest op is hidden changes in the view. */
  lemma HiddenLatestShows(m: map<string, Op>, lost: seq<Op>, retained: seq<Op>, k: string)
    requires Ordered(m, lost + retained) && HasKey(lost, k) && !HasKey(retained, k)
    ensures var full, cut := LastWins(LastWins(m, lost), retained), LastWins(m, retained);
            k in full && (k in cut ==> full[k] != cut[k])
  {
    LastWinsLookup(m, lost, k);
    LastWinsLookup(LastWins(m, lost), retained, k);
    LastWinsLookup(m, retained, k);
    var i :| 0 <= i < |lost| && KeyOf(lost[i]) == k && LastWins(m, lost)[k] == lost[i];
    assert (lost + retained)[i] == lost[i];
  }

  lemma VisibleKeyIsUnmoved(m: map<string, Op>, lost: seq<Op>, retained: seq<Op>, k: string)
    requires HasKey(retained, k) || !HasKey(lost, k)
    ensures var full, cut := LastWins(LastWins(m, lost), retained), LastWins(m, retained);
            (k in full <==> k in cut) && (k in full ==> full[k] == cut[k])
  {
    if HasKey(retained, k) {
      LastWinsForgets(LastWins(m, lost), m, retained, k);
    } else {
      LastWinsLookup(m, lost, k);
      LastWinsLookup(LastWins(m, lost), retained, k);
      LastWinsLookup(m, retained, k);
    }
  }

  /**
   * The exact condition: a write with a fresh id acts on the view like an assignment to its key if and
   * only if no op it hides was still the latest for another key.
   */
  lemma WriteIsAssignmentExactly(s: Store, op: Op)
    requires Inv(s) && Ordered(s.snap.entries, Uncompacted(s)) && Fresh(s, op)
    ensures Inv(WriteOp(s, op))
    ensures View(WriteOp(s, op)) == View(s)[KeyOf(op) := op] <==> Harmless(s, op)
  {
    hide Lost, Retained, Uncompacted, KeyOf, Ordered;
    ViewAfterWrite(s, op);
    LostThenRetained(s);
    var full, cut := View(s), LastWins(s.snap.entries, Retained(s));
    if Harmless(s, op) {
      forall k | k != KeyOf(op)
        ensures (k in full <==> k in cut) && (k in full ==> full[k] == cut[k])
      {
        assert HasKey(Lost(s), k) ==> HasKey(Retained(s), k);
        VisibleKeyIsUnmoved(s.snap.entries, Lost(s), Retained(s), k);
      }
      assert cut[KeyOf(op) := op] == full[KeyOf(op) := op];
    } else {
      var i :| 0 <= i < |Lost(s)| && KeyOf(Lost(s)[i]) != KeyOf(op) && !HasKey(Retained(s), KeyOf(Lost(s)[i]));
      var k := KeyOf(Lost(s)[i]);
      assert HasKey(Lost(s), k);
      HiddenLatestShows(s.snap.entries, Lost(s), Retained(s), k);
      assert k in full[KeyOf(op) := op];
    }
  }

  /** Compacting only full heads, and before the ring comes round, hides nothing. */
  lemma FullHeadsAndRoomLoseNothing(s: Store)
    requires Inv(s)
    requires HeadCovered(s) ==> s.snap.headCursor == s.segCap
    requires HeadFull(s) && !HeadCovered(s) ==> Oldest(s) < Start(s)
    ensures Lost(s) == []
  {
    if HeadFull(s) && HeadCovered(s) {
      assert SegAt(s, s.head).slots[s.snap.headCursor..Filled(s, s.head)] == [];
    }
  }

  // ------------------------------------------------------------------ whole runs

  datatype Event = Wrote(op: Op) | Compacted(now: int)

  /** ids remembers the highest id ever written per key. */
  datatype Run = Run(store: Store, ids: map<string, nat>, model: map<string, Op>)

  /** New(): ring of empty segments, empty snapshot that has covered nothing. */
  function Init(ringSize: nat, segCap: nat): Run {
    Run(Store(seq(ringSize, _ => Segment(seq(segCap, _ => None), 0, 0)), segCap, 0, Snap(map[], 0, false, 0)), map[],
        map[])
  }

  function Next(r: Run, e: Event, ttl: int): Run
    requires Shaped(r.store)
  {
    match e
    case Wrote(op) =>
      Run(WriteOp(r.store, op), r.ids[KeyOf(op) := op.opId], r.model[KeyOf(op) := op])
    case Compacted(now) =>
      r.(store := Compact(r.store, now, ttl),
         model := if HeadCovered(r.store) then r.model else Purge(r.model, now, ttl))
  }

  /** Ids increase per key, and no write hides an op that is still the latest for its key. */
  ghost predicate Allowed(r: Run, e: Event)
    requires Shaped(r.store)
  {
    e.Wrote? ==> (KeyOf(e.op) in r.ids ==> r.ids[KeyOf(e.op)] < e.op.opId) && Harmless(r.store, e.op)
  }

  ghost predicate Known(m: map<string, Op>, ops: seq<Op>, ids: map<string, nat>) {
    && (forall k :: k in m ==> KeyOf(m[k]) == k && k in ids && m[k].opId <= ids[k])
    && (forall i :: 0 <= i < |ops| ==> KeyOf(ops[i]) in ids && ops[i].opId <= ids[KeyOf(ops[i])])
  }

  /** The refinement: readers see exactly the last-write-wins map, whose ops are the newest of their keys. */
  ghost predicate Refines(r: Run) {
    && Inv(r.store) && Ordered(r.store.snap.entries, Uncompacted(r.store))
    && Known(r.store.snap.entries, Uncompacted(r.store), r.ids)
    && View(r.store) == r.model
    && forall k :: k in r.model ==> KeyOf(r.model[k]) == k && k in r.ids && r.model[k].opId == r.ids[k]
  }

  lemma InitRefines(ringSize: nat, segCap: nat)
    requires ringSize > 0 && segCap > 0
    ensures Refines(Init(ringSize, segCap))
  {
    var s := Init(ringSize, segCap).store;
    DivModUnique(0, 0, 0, ringSize);
    assert SegAt(s, 0).slots[0..0] == [];
    assert RangeOps(s, 0, 0) == RangeOps(s, 0, -1) + SegOps(s, 0, 0);
    assert Uncompacted(s) == [];
    assert View(s) == map[];
  }

  lemma KnownAfterWrite(m: map<string, Op>, lost: seq<Op>, kept: seq<Op>, ids: map<string, nat>, op: Op)
    requires Known(m, lost + kept, ids) && (KeyOf(op) in ids ==> ids[KeyOf(op)] < op.opId)
    ensures Newest(m, lost + kept, op) && Known(m, kept + [op], ids[KeyOf(op) := op.opId])
  {
    hide KeyOf;
    forall i | 0 <= i < |kept|
      ensures kept[i] == (lost + kept)[|lost| + i]
    {
    }
  }

  lemma WriteRefines(r: Run, op: Op, ttl: int)
    requires Refines(r) && Allowed(r, Wrote(op))
    ensures Refines(Next(r, Wrote(op), ttl))
  {
    hide Uncompacted, Lost, Retained, View, WriteOp, Ordered, Harmless, Known, KeyOf;
    var s := r.store;
    LostThenRetained(s);
    KnownAfterWrite(s.snap.entries, Lost(s), Retained(s), r.ids, op);
    WriteKeepsRetained(s, op);
    WriteIsAssignmentExactly(s, op);
    OrderedAfterWrite(s, op);
  }

  /** A purge only takes entries away, so what is known of the rest stays known. */
  lemma PurgeKeepsKnown(m: map<string, Op>, ids: map<string, nat>, now: int, ttl: int)
    requires forall k :: k in m ==> KeyOf(m[k]) == k && k in ids && m[k].opId == ids[k]
    ensures var p := Purge(m, now, ttl);
            && Known(p, [], ids) && Ordered(p, [])
            && forall k :: k in p ==> KeyOf(p[k]) == k && k in ids && p[k].opId == ids[k]
  {
  }

  lemma CompactRefines(r: Run, now: int, ttl: int)
    requires Refines(r)
    ensures Refines(Next(r, Compacted(now), ttl))
  {
    hide Uncompacted, KeyOf, Ordered, Known, Purge, Current, Filled;
    CompactPreservesView(r.store, now, ttl);
    CompactKeepsInv(r.store, now, ttl);
    if !HeadCovered(r.store) {
      var t := Next(r, Compacted(now), ttl);
      PurgeKeepsKnown(r.model, r.ids, now, ttl);
      assert View(t.store) == Merge(t.store.snap.entries, []) == t.store.snap.entries;
    }
  }

  lemma CompactKeepsInv(s: Store, now: int, ttl: int)
    requires Inv(s)
    ensures Inv(Compact(s, now, ttl))
  {
    if !HeadCovered(s) { PublishKeepsInv(s, s.head, Scan(s, now, ttl)); }
  }

  lemma PublishKeepsInv(s: Store, h: nat, entries: map<string, Op>)
    requires Inv(s) && h <= s.head
    ensures Inv(Publish(s, h, entries))
  {
    var t := Publish(s, h, entries);
    forall i: nat | i <= t.head && t.head - |t.ring| < i
      ensures Current(t, i)
    {
      assert Current(s, i);
    }
  }

  function RunAll(r: Run, events: seq<Event>, ttl: int): (t: Run)
    requires Shaped(r.store)
    ensures Shaped(t.store)
  {
    if events == [] then r
    else
      var u := RunAll(r, events[..|events| - 1], ttl);
      ShapeKept(u, events[|events| - 1], ttl);
      Next(u, events[|events| - 1], ttl)
  }

  lemma ShapeKept(r: Run, e: Event, ttl: int)
    requires Shaped(r.store)
    ensures Shaped(Next(r, e, ttl).store)
  {
  }

  ghost predicate AllAllowed(r: Run, events: seq<Event>, ttl: int)
    requires Shaped(r.store)
  {
    events == []
    || (AllAllowed(r, events[..|events| - 1], ttl)
       && Allowed(RunAll(r, events[..|events| - 1], ttl), events[|events| - 1]))
  }

  /** Over every allowed run the cache is the last-write-wins map of everything written, minus expired tombstones. */
  lemma {:induction false} CacheIsLastWriteWins(ringSize: nat, segCap: nat, events: seq<Event>, ttl: int)
    requires ringSize > 0 && segCap > 0 && Shaped(Init(ringSize, segCap).store)
    requires AllAllowed(Init(ringSize, segCap), events, ttl)
    ensures Refines(RunAll(Init(ringSize, segCap), events, ttl))
  {
    if events == [] {
      InitRefines(ringSize, segCap);
    } else {
      CacheIsLastWriteWins(ringSize, segCap, events[..|events| - 1], ttl);
      var r := RunAll(Init(ringSize, segCap), events[..|events| - 1], ttl);
      match events[|events| - 1]
      case Wrote(op) => WriteRefines(r, op, ttl);
      case Compacted(now) => CompactRefines(r, now, ttl);
    }
  }

  // ------------------------------------------------------------------ exactly these runs

  /** Ids increase per key. */
  predicate IdIncreases(r: Run, e: Event) {
    e.Wrote? && KeyOf(e.op) in r.ids ==> r.ids[KeyOf(e.op)] < e.op.opId
  }

  predicate IdsIncrease(r: Run, events: seq<Event>, ttl: int)
    requires Shaped(r.store)
  {
    events == []
    || (IdsIncrease(r, events[..|events| - 1], ttl)
        && IdIncreases(RunAll(r, events[..|events| - 1], ttl), events[|events| - 1]))
  }

  /** Readers see the last-write-wins map now and at every earlier point of the run. */
  ghost predicate AlwaysAgrees(r: Run, events: seq<Event>, ttl: int)
    requires Shaped(r.store)
  {
    && View(RunAll(r, events, ttl).store) == RunAll(r, events, ttl).model
    && (events == [] || AlwaysAgrees(r, events[..|events| - 1], ttl))
  }

  /** On an agreeing store the next event keeps the agreement exactly when it is allowed. */
  lemma NextAgreesExactly(r: Run, e: Event, ttl: int)
    requires Refines(r) && IdIncreases(r, e)
    ensures Shaped(Next(r, e, ttl).store)
    ensures View(Next(r, e, ttl).store) == Next(r, e, ttl).model <==> Allowed(r, e)
  {
    ShapeKept(r, e, ttl);
    match e
    case Wrote(op) =>
      hide Uncompacted, Lost, Retained, View, WriteOp, Ordered, Harmless, Known, KeyOf;
      var s := r.store;
      LostThenRetained(s);
      KnownAfterWrite(s.snap.entries, Lost(s), Retained(s), r.ids, op);
      WriteIsAssignmentExactly(s, op);
    case Compacted(now) =>
      CompactRefines(r, now, ttl);
      hide Next, Inv, View, Ordered, Known;
  }

  /** With ids that increase per key, the cache agrees with the map throughout a run exactly when the run is allowed. */
  lemma {:induction false} CacheIsLastWriteWinsExactly(ringSize: nat, segCap: nat, events: seq<Event>, ttl: int)
    requires ringSize > 0 && segCap > 0 && Shaped(Init(ringSize, segCap).store)
    requires IdsIncrease(Init(ringSize, segCap), events, ttl)
    ensures AlwaysAgrees(Init(ringSize, segCap), events, ttl) <==> AllAllowed(Init(ringSize, segCap), events, ttl)
  {
    var start := Init(ringSize, segCap);
    if events == [] {
      InitRefines(ringSize, segCap);
    } else {
      var before, e := events[..|events| - 1], events[|events| - 1];
      CacheIsLastWriteWinsExactly(ringSize, segCap, before, ttl);
      if AllAllowed(start, before, ttl) {
        CacheIsLastWriteWins(ringSize, segCap, before, ttl);
        NextAgreesExactly(RunAll(start, before, ttl), e, ttl);
      }
      hide Next, Refines, Allowed, IdIncreases, View, Init;
    }
  }

  // ------------------------------------------------------------------ a schedule that loses nothing

  /**
   * Ids increase per key; a compaction with work to do finds a full head; no write takes over an uncompacted segment.
   */
  ghost predicate Scheduled(r: Run, e: Event)
    requires Shaped(r.store)
  {
    var s := r.store;
    match e
    case Wrote(op) =>
      && (KeyOf(op) in r.ids ==> r.ids[KeyOf(op)] < op.opId)
      && (HeadFull(s) && !HeadCovered(s) ==> Oldest(s) < Start(s))
    case Compacted(_) => !HeadCovered(s) ==> HeadFull(s)
  }

  ghost predicate AllScheduled(r: Run, events: seq<Event>, ttl: int)
    requires Shaped(r.store)
  {
    events == []
    || (AllScheduled(r, events[..|events| - 1], ttl)
       && Scheduled(RunAll(r, events[..|events| - 1], ttl), events[|events| - 1]))
  }

  /** A covered head was covered whole. */
  predicate CoveredWhole(s: Store) { HeadCovered(s) ==> s.snap.headCursor == s.segCap }

  lemma ScheduledKeepsCoveredWhole(r: Run, e: Event, ttl: int)
    requires Inv(r.store) && CoveredWhole(r.store) && Scheduled(r, e)
    ensures CoveredWhole(Next(r, e, ttl).store)
  {
  }

  lemma ScheduledIsAllowed(r: Run, e: Event)
    requires Inv(r.store) && CoveredWhole(r.store) && Scheduled(r, e)
    ensures Allowed(r, e)
  {
    if e.Wrote? { FullHeadsAndRoomLoseNothing(r.store); }
  }

  /**
   * If every compaction with work to do finds a full head segment and no uncompacted segment is ever reused, the cache
   * is the last-write-wins map of everything written, minus expired tombstones.
   */
  lemma {:induction false} FullHeadScheduleIsLastWriteWins(ringSize: nat, segCap: nat, events: seq<Event>, ttl: int)
    requires ringSize > 0 && segCap > 0 && Shaped(Init(ringSize, segCap).store)
    requires AllScheduled(Init(ringSize, segCap), events, ttl)
    ensures AllAllowed(Init(ringSize, segCap), events, ttl)
    ensures Refines(RunAll(Init(ringSize, segCap), events, ttl))
    ensures CoveredWhole(RunAll(Init(ringSize, segCap), events, ttl).store)
  {
    var start := Init(ringSize, segCap);
    if events == [] {
      InitRefines(ringSize, segCap);
    } else {
      FullHeadScheduleIsLastWriteWins(ringSize, segCap, events[..|events| - 1], ttl);
      var r, e := RunAll(start, events[..|events| - 1], ttl), events[|events| - 1];
      ScheduledIsAllowed(r, e);
      ScheduledKeepsCoveredWhole(r, e, ttl);
      hide Next, Refines, Allowed, Scheduled, CoveredWhole, Init;
      CacheIsLastWriteWins(ringSize, segCap, events, ttl);
    }
  }

  lemma {:induction false} IdsOnlyGrow(r: Run, events: seq<Event>, ttl: int, k: string)
    requires Shaped(r.store) && AllAllowed(r, events, ttl) && k in r.ids
    ensures k in RunAll(r, events, ttl).ids && r.ids[k] <= RunAll(r, events, ttl).ids[k]
  {
    if events != [] {
      IdsOnlyGrow(r, events[..|events| - 1], ttl, k);
    }
  }

  lemma {:induction false} RefinesOver(r: Run, events: seq<Event>, ttl: int)
    requires Refines(r) && AllAllowed(r, events, ttl)
    ensures Refines(RunAll(r, events, ttl))
  {
    if events != [] {
      RefinesOver(r, events[..|events| - 1], ttl);
      var u := RunAll(r, events[..|events| - 1], ttl);
      match events[|events| - 1]
      case Wrote(op) => WriteRefines(u, op, ttl);
      case Compacted(now) => CompactRefines(u, now, ttl);
    }
  }

  /** Once a key is tombstoned no later read of the run shows it with an older value. */
  lemma TombstoneIsFinal(r: Run, tomb: Op, events: seq<Event>, ttl: int)
    requires Refines(r) && tomb.tombstone && Allowed(r, Wrote(tomb))
    requires Shaped(Next(r, Wrote(tomb), ttl).store) && AllAllowed(Next(r, Wrote(tomb), ttl), events, ttl)
    ensures var t := RunAll(Next(r, Wrote(tomb), ttl), events, ttl);
            KeyOf(tomb) in View(t.store) ==> View(t.store)[KeyOf(tomb)].opId >= tomb.opId
  {
    WriteRefines(r, tomb, ttl);
    RefinesOver(Next(r, Wrote(tomb), ttl), events, ttl);
    IdsOnlyGrow(Next(r, Wrote(tomb), ttl), events, ttl, KeyOf(tomb));
  }

  /** Over any allowed run a value that is not a tombstone stays in the view until its key is written again. */
  lemma {:induction false} ValuesStayUntilRewritten(r: Run, events: seq<Event>, ttl: int, k: string)
    requires Refines(r) && AllAllowed(r, events, ttl) && k in View(r.store) && !View(r.store)[k].tombstone
    requires forall i :: 0 <= i < |events| && events[i].Wrote? ==> KeyOf(events[i].op) != k
    ensures var t := RunAll(r, events, ttl); k in View(t.store) && View(t.store)[k] == View(r.store)[k]
  {
    if events != [] {
      var before, e := events[..|events| - 1], events[|events| - 1];
      ValuesStayUntilRewritten(r, before, ttl, k);
      RefinesOver(r, before, ttl);
      var u := RunAll(r, before, ttl);
      match e
      case Wrote(op) => WriteRefines(u, op, ttl);
      case Compacted(now) =>
        CompactKeepsShape(u.store, now, ttl);
        LiveValuesStay(u.store, now, ttl, k);
        hide View, Refines, Inv;
    }
  }

  lemma CompactKeepsShape(s: Store, now: int, ttl: int)
    requires Shaped(s)
    ensures Shaped(Compact(s, now, ttl))
  {
  }

  // ------------------------------------------------------------------ the loss is real

  function Sample(key: string, id: nat): Op { Op("entity", key, "v", id, 0, false, 1) }

  /** Segment 0 half compacted with "a", "b" written after it; the other segment unused. */
  function HalfCompacted(): Store {
    var a, b := Sample("a", 1), Sample("b", 2);
    Store([Segment([Some(a), Some(b)], 2, 0), Segment([None, None], 0, 0)], 2, 0, Snap(map[KeyOf(a) := a], 0, true, 1))
  }

  function HalfFilled(): Store {
    Store([Segment([Some(Sample("a", 1)), None], 1, 0), Segment([None, None], 0, 0)], 2, 0, Snap(map[], 0, false, 0))
  }

  lemma HalfFilledIsReachable()
    ensures Shaped(Init(2, 2).store) && WriteOp(Init(2, 2).store, Sample("a", 1)) == HalfFilled()
  {
    var s := Init(2, 2).store;
    assert s.ring[0].slots == [None, None] && s.ring[1].slots == [None, None];
    assert s.ring == [Segment([None, None], 0, 0), Segment([None, None], 0, 0)];
    var empty: seq<Option<Op>> := [None, None];
    assert empty[0 := Some(Sample("a", 1))] == [Some(Sample("a", 1)), None];
    assert WriteOp(s, Sample("a", 1)).ring == HalfFilled().ring;
  }

  lemma HalfCompactedIsReachable()
    ensures Shaped(HalfFilled()) && Shaped(Compact(HalfFilled(), 0, 30))
    ensures WriteOp(Compact(HalfFilled(), 0, 30), Sample("b", 2)) == HalfCompacted()
  {
    HalfFilledScan();
    HalfCompactedTakesAWrite();
    hide Scan, RangeOps, Merge, WriteOp, KeyOf;
  }

  lemma HalfFilledOps()
    ensures Shaped(HalfFilled()) && RangeOps(HalfFilled(), 0, 0) == [Sample("a", 1)]
  {
    var a, s := Sample("a", 1), HalfFilled();
    assert SegAt(s, 0).slots[0..1] == [Some(a)];
    assert Somes([Some(a)]) == Somes([]) + [a];
    assert RangeOps(s, 0, 0) == RangeOps(s, 0, -1) + SegOps(s, 0, 0);
  }

  lemma HalfFilledScan()
    ensures Shaped(HalfFilled()) && Scan(HalfFilled(), 0, 30) == map[KeyOf(Sample("a", 1)) := Sample("a", 1)]
  {
    HalfFilledOps();
    MergeSingle(map[], Sample("a", 1));
    hide RangeOps, Shaped, KeyOf, Merge;
  }

  lemma HalfCompactedTakesAWrite()
    ensures WriteOp(HalfFilled().(snap := HalfCompacted().snap), Sample("b", 2)) == HalfCompacted()
  {
    var t := HalfFilled().(snap := HalfCompacted().snap);
    var half: seq<Option<Op>> := [Some(Sample("a", 1)), None];
    assert half[1 := Some(Sample("b", 2))] == [Some(Sample("a", 1)), Some(Sample("b", 2))];
    assert WriteOp(t, Sample("b", 2)).ring == HalfCompacted().ring;
  }

  lemma HalfCompactedFacts()
    ensures var s := HalfCompacted();
            Inv(s) && HeadFull(s) && HeadCovered(s) && Uncompacted(s) == [Sample("b", 2)] && Retained(s) == []
  {
    var s, b := HalfCompacted(), Sample("b", 2);
    assert SegAt(s, 0).slots[1..2] == [Some(b)];
    assert Somes([Some(b)]) == Somes([]) + [b];
  }

  /**
   * A compaction of a half-filled head, one write to the other half and one more write: the middle op was
   * visible and then is not, although its key was never written again.
   */
  lemma CompactedHeadLosesAWrite()
    ensures Shaped(HalfCompacted()) && KeyOf(Sample("b", 2)) in View(HalfCompacted())
    ensures Shaped(WriteOp(HalfCompacted(), Sample("c", 3)))
    ensures KeyOf(Sample("b", 2)) !in View(WriteOp(HalfCompacted(), Sample("c", 3)))
  {
    var s, b, c := HalfCompacted(), Sample("b", 2), Sample("c", 3);
    SampleKeysDiffer();
    HalfCompactedFacts();
    WriteKeepsRetained(s, c);
    assert KeyOf(b) !in s.snap.entries;
    hide Uncompacted, Retained, WriteOp, KeyOf, HalfCompacted, Merge, Inv, Sample;
    assert [] + [c] == [c];
    MergeSingle(s.snap.entries, b);
    MergeSingle(s.snap.entries, c);
  }

  lemma SampleKeysDiffer()
    ensures KeyOf(Sample("a", 1)) != KeyOf(Sample("b", 2)) && KeyOf(Sample("b", 2)) != KeyOf(Sample("c", 3))
  {
    assert KeyOf(Sample("a", 1))[7] == 'a' && KeyOf(Sample("b", 2))[7] == 'b' && KeyOf(Sample("c", 3))[7] == 'c';
  }
}
