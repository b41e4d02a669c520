/**
 * A compaction with writes between its scan and its publication. The scan stops at the slots filled so far, while the
 * snapshot records the cursor found later: what landed in the scanned head in between is in neither.
 */
module CompactRace {
  import opened Common
  import opened StoreModel
  import opened StoreRuns

  function WriteAll(s: Store, ops: seq<Op>): (t: Store)
    requires Shaped(s)
    ensures Shaped(t)
  {
    if ops == [] then s
    else
      WriteShaped(WriteAll(s, ops[..|ops| - 1]), ops[|ops| - 1]);
      WriteOp(WriteAll(s, ops[..|ops| - 1]), ops[|ops| - 1])
  }

  lemma WriteShaped(s: Store, op: Op)
    requires Shaped(s)
    ensures Shaped(WriteOp(s, op))
  {
  }

  /** The scan sees s, the snapshot is installed after ops have been written. */
  function Interrupted(s: Store, ops: seq<Op>, now: int, ttl: int): Store
    requires Shaped(s)
  {
    Publish(WriteAll(s, ops), s.head, Scan(s, now, ttl))
  }

  /** How many of the writes land in the segment that was the head during the scan. */
  function Missed(s: Store, ops: seq<Op>): nat
    requires Shaped(s)
  {
    Min(|ops|, s.segCap - Filled(s, s.head))
  }

  /** The store as if the snapshot had recorded the cursor of the scan; a device to follow the writes with. */
  function Marked(s: Store, entries: map<string, Op>): Store
    requires Shaped(s)
  {
    Publish(s, s.head, entries)
  }

  lemma WriteIgnoresTheSnapshot(s: Store, snap: Snap, op: Op)
    requires Shaped(s) && Shaped(s.(snap := snap))
    ensures WriteOp(s.(snap := snap), op) == WriteOp(s, op).(snap := snap)
    ensures WriteOp(s, op).head >= s.head
  {
  }

  lemma {:induction false} WritesIgnoreTheSnapshot(s: Store, snap: Snap, ops: seq<Op>)
    requires Shaped(s) && Shaped(s.(snap := snap)) && snap.through <= s.head
    ensures WriteAll(s.(snap := snap), ops) == WriteAll(s, ops).(snap := snap)
    ensures WriteAll(s, ops).head >= s.head
  {
    if ops != [] {
      var u := WriteAll(s, ops[..|ops| - 1]);
      WritesIgnoreTheSnapshot(s, snap, ops[..|ops| - 1]);
      WriteIgnoresTheSnapshot(u, snap, ops[|ops| - 1]);
      hide WriteOp;
    }
  }

  /** From s to t the ops were written: up to Missed of them fill the head of s, the others stay uncompacted. */
  ghost predicate Filling(s: Store, ops: seq<Op>, t: Store)
    requires Shaped(s)
  {
    && Inv(t) && t.snap == s.snap && |t.ring| == |s.ring| && t.segCap == s.segCap && s.head <= t.head
    && (t.head == s.head ==> Missed(s, ops) == |ops| && Filled(t, t.head) == Filled(s, s.head) + |ops|)
    && (t.head > s.head ==>
          |ops| > Missed(s, ops) == s.segCap - Filled(s, s.head) && Uncompacted(t) == ops[Missed(s, ops)..])
  }

  lemma {:induction false} WritesFillTheHead(s: Store, ops: seq<Op>)
    requires Inv(s) && HeadCovered(s) && s.snap.headCursor == Filled(s, s.head)
    requires WriteAll(s, ops).head <= s.head + |s.ring|
    ensures Filling(s, ops, WriteAll(s, ops))
  {
    InvIsShaped(s);
    hide WriteOp, Inv, Filled, HeadCovered, Shaped, Filling, HeadFull;
    if ops == [] {
      NothingWritten(s);
    } else {
      var init, last := ops[..|ops| - 1], ops[|ops| - 1];
      LastWrite(s, ops);
      hide WriteAll;
      HeadOnlyGrows(WriteAll(s, init), last);
      WritesFillTheHead(s, init);
      OneMoreWrite(s, WriteAll(s, init), init, last);
    }
  }

  lemma LastWrite(s: Store, ops: seq<Op>)
    requires Shaped(s) && ops != []
    ensures var init, last := ops[..|ops| - 1], ops[|ops| - 1];
            WriteAll(s, ops) == WriteOp(WriteAll(s, init), last) && ops == init + [last]
  {
  }

  lemma InvIsShaped(s: Store)
    requires Inv(s)
    ensures Shaped(s)
  {
  }

  lemma NothingWritten(s: Store)
    requires Inv(s)
    ensures Filling(s, [], s)
  {
  }

  lemma HeadOnlyGrows(s: Store, op: Op)
    requires Shaped(s)
    ensures WriteOp(s, op).head == s.head + (if HeadFull(s) then 1 else 0)
    ensures |WriteOp(s, op).ring| == |s.ring| && WriteOp(s, op).segCap == s.segCap
  {
  }

  lemma OneMoreWrite(s: Store, u: Store, init: seq<Op>, last: Op)
    requires Inv(s) && HeadCovered(s) && Shaped(u) && Filling(s, init, u)
    requires WriteOp(u, last).head <= s.head + |s.ring|
    ensures Filling(s, init + [last], WriteOp(u, last))
  {
    WriteKeepsRetained(u, last);
    HeadOnlyGrows(u, last);
    hide WriteOp, Inv, SegOps, RangeOps, SegAt, AdvanceHead, Put;
    if u.head == s.head && !HeadFull(u) {
      FillsOn(s, u, init, last);
    } else if u.head == s.head {
      OpensNext(s, u, init, last);
    } else {
      GoesOn(s, u, init, last);
    }
  }

  lemma FillsOn(s: Store, u: Store, init: seq<Op>, last: Op)
    requires Shaped(s) && Filling(s, init, u) && u.head == s.head && !HeadFull(u)
    ensures WriteOp(u, last).head == s.head
    ensures Filled(WriteOp(u, last), s.head) == Filled(s, s.head) + |init| + 1 <= s.segCap
  {
    PutKeepsInv(u, last);
    hide Inv, Put, Uncompacted;
  }

  lemma OpensNext(s: Store, u: Store, init: seq<Op>, last: Op)
    requires Shaped(s) && HeadCovered(s) && Filling(s, init, u) && u.head == s.head && HeadFull(u)
    ensures Retained(u) == [] && |init| == Missed(s, init) == s.segCap - Filled(s, s.head)
  {
    hide Inv, Uncompacted;
  }

  lemma GoesOn(s: Store, u: Store, init: seq<Op>, last: Op)
    requires Shaped(s) && HeadCovered(s) && Filling(s, init, u) && u.head > s.head
    requires u.head + (if HeadFull(u) then 1 else 0) <= s.head + |s.ring|
    ensures Retained(u) == Uncompacted(u)
  {
    hide Inv, Uncompacted, HeadFull, Missed, Filled;
  }

  lemma InterruptedIsMarkedLater(s: Store, ops: seq<Op>, now: int, ttl: int)
    requires Inv(s) && !HeadCovered(s)
    ensures Shaped(Marked(s, Scan(s, now, ttl)))
    ensures WriteAll(Marked(s, Scan(s, now, ttl)), ops).head == WriteAll(s, ops).head
    ensures Interrupted(s, ops, now, ttl)
         == Publish(WriteAll(Marked(s, Scan(s, now, ttl)), ops), s.head, Scan(s, now, ttl))
  {
    var m := Marked(s, Scan(s, now, ttl));
    hide SegOps, RangeOps, Scan, WriteAll;
    WritesIgnoreTheSnapshot(s, m.snap, ops);
  }

  /**
   * Whatever is written between the scan and the publication, and as long as the ring does not come round, readers see
   * the scan followed by the writes that no longer fitted the scanned head.
   */
  lemma InterruptedCompaction(s: Store, ops: seq<Op>, now: int, ttl: int)
    requires Inv(s) && !HeadCovered(s) && WriteAll(s, ops).head <= s.head + |s.ring|
    ensures Inv(Interrupted(s, ops, now, ttl)) && Missed(s, ops) <= |ops|
    ensures Uncompacted(Interrupted(s, ops, now, ttl)) == ops[Missed(s, ops)..]
    ensures View(Interrupted(s, ops, now, ttl)) == Merge(Purge(View(s), now, ttl), ops[Missed(s, ops)..])
  {
    var entries := Scan(s, now, ttl);
    var m := Marked(s, entries);
    PublishKeepsInv(s, s.head, entries);
    MarkedFacts(s, entries);
    InterruptedIsMarkedLater(s, ops, now, ttl);
    WritesFillTheHead(m, ops);
    ScanIsTheView(s, now, ttl);
    var t := WriteAll(m, ops);
    PublishKeepsInv(t, s.head, entries);
    hide Inv, Missed, Filled, SegOps, RangeOps, Scan, WriteAll, Publish, Interrupted, HeadCovered, Uncompacted, Marked;
    PublishedReads(t, s.head, entries);
    PublishedSnapshot(t, s.head, entries);
    MissedAtMost(s, ops);
  }

  lemma MissedAtMost(s: Store, ops: seq<Op>)
    requires Shaped(s)
    ensures Missed(s, ops) <= |ops| && (Missed(s, ops) == |ops| ==> ops[Missed(s, ops)..] == [])
  {
  }

  lemma ScanIsTheView(s: Store, now: int, ttl: int)
    requires Shaped(s) && !HeadCovered(s)
    ensures Scan(s, now, ttl) == Purge(View(s), now, ttl)
  {
    assert Uncompacted(s) == RangeOps(s, Start(s), s.head);
  }

  lemma PublishedSnapshot(t: Store, h: nat, entries: map<string, Op>)
    requires Shaped(t) && h <= t.head
    ensures Shaped(Publish(t, h, entries))
            && View(Publish(t, h, entries)) == Merge(entries, Uncompacted(Publish(t, h, entries)))
  {
  }

  lemma MarkedFacts(s: Store, entries: map<string, Op>)
    requires Shaped(s)
    ensures var m := Marked(s, entries);
            && Shaped(m) && HeadCovered(m) && m.snap.headCursor == Filled(m, m.head) && m == s.(snap := m.snap)
            && m.snap.compacted && m.snap.through == s.head && m.head == s.head && |m.ring| == |s.ring|
            && forall ops :: Missed(m, ops) == Missed(s, ops)
  {
  }

  lemma CoveredReadsNothing(s: Store)
    requires Shaped(s) && HeadCovered(s) && s.snap.headCursor == Filled(s, s.head)
    ensures Uncompacted(s) == []
  {
    assert SegAt(s, s.head).slots[Filled(s, s.head)..Filled(s, s.head)] == [];
  }

  /** Published after all, the snapshot hides what the head holds; behind a later head it hides nothing new. */
  lemma PublishedReads(t: Store, h: nat, entries: map<string, Op>)
    requires Shaped(t) && h == t.snap.through <= t.head && t.snap.compacted
    ensures Shaped(Publish(t, h, entries))
    ensures Uncompacted(Publish(t, h, entries)) == if h == t.head then [] else Uncompacted(t)
  {
    if h == t.head {
      CoveredReadsNothing(Publish(t, h, entries));
    } else {
      LaterHeadReadsOn(t, h, entries);
    }
  }

  lemma LaterHeadReadsOn(t: Store, h: nat, entries: map<string, Op>)
    requires Shaped(t) && h == t.snap.through < t.head && t.snap.compacted
    ensures Shaped(Publish(t, h, entries)) && Uncompacted(Publish(t, h, entries)) == Uncompacted(t)
  {
    var u := Publish(t, h, entries);
    assert HeadExtra(t) == [] && HeadExtra(u) == [];
    forall i: nat | h + 1 <= i <= t.head
      ensures SegOps(t, i, 0) == SegOps(u, i, 0)
    {
    }
    hide SegOps, Filled, HeadExtra;
    SameRange(t, u, h + 1, t.head);
  }

  /**
   * The exact condition: with ids above everything older, an interrupted compaction shows every write if and only if
   * each write that still fitted the scanned head is followed by one for its key that did not.
   */
  lemma NothingIsMissedExactly(s: Store, ops: seq<Op>, now: int, ttl: int)
    requires Inv(s) && !HeadCovered(s) && WriteAll(s, ops).head <= s.head + |s.ring|
    requires Ordered(Purge(View(s), now, ttl), ops)
    ensures Inv(Interrupted(s, ops, now, ttl))
    ensures View(Interrupted(s, ops, now, ttl)) == Merge(Purge(View(s), now, ttl), ops)
       <==> forall i :: 0 <= i < Missed(s, ops) ==> HasKey(ops[Missed(s, ops)..], KeyOf(ops[i]))
  {
    InterruptedCompaction(s, ops, now, ttl);
    var m, n := Purge(View(s), now, ttl), Missed(s, ops);
    hide *;
    MissedIsHiddenExactly(m, ops, n);
  }

  /** A single write in between is lost exactly when the scanned head had room for it. */
  lemma OneWriteInBetween(s: Store, op: Op, now: int, ttl: int)
    requires Inv(s) && !HeadCovered(s) && Newest(Purge(View(s), now, ttl), [], op)
    ensures Inv(Interrupted(s, [op], now, ttl))
    ensures View(Interrupted(s, [op], now, ttl))
         == if HeadFull(s) then Purge(View(s), now, ttl)[KeyOf(op) := op] else Purge(View(s), now, ttl)
  {
    var m := Purge(View(s), now, ttl);
    assert WriteAll(s, [op]) == WriteOp(WriteAll(s, []), op);
    HeadOnlyGrows(s, op);
    InterruptedCompaction(s, [op], now, ttl);
    assert [op][0..] == [op] && [op][1..] == [];
    MergeSingle(m, op);
    hide View, Purge, Interrupted, Inv, WriteOp, KeyOf;
  }

  lemma MissedIsHiddenExactly(m: map<string, Op>, ops: seq<Op>, n: nat)
    requires n <= |ops| && Ordered(m, ops)
    ensures Merge(m, ops[n..]) == Merge(m, ops) <==> forall i :: 0 <= i < n ==> HasKey(ops[n..], KeyOf(ops[i]))
  {
    hide *;
    assert ops[..n] + ops[n..] == ops;
    HiddenExactly(m, ops[..n], ops[n..]);
  }

  /**
   * Dropping the first part of an ordered list of ops changes the merge exactly if some key of it is not written again.
   */
  lemma HiddenExactly(m: map<string, Op>, lost: seq<Op>, kept: seq<Op>)
    requires Ordered(m, lost + kept)
    ensures Merge(m, kept) == Merge(m, lost + kept)
       <==> forall i :: 0 <= i < |lost| ==> HasKey(kept, KeyOf(lost[i]))
  {
    hide KeyOf;
    assert forall i {:trigger kept[i]} :: 0 <= i < |kept| ==> kept[i] == (lost + kept)[|lost| + i];
    MergeIsLastWins(m, lost + kept);
    MergeIsLastWins(m, kept);
    LastWinsConcat(m, lost, kept);
    var full, cut := LastWins(LastWins(m, lost), kept), LastWins(m, kept);
    if forall i :: 0 <= i < |lost| ==> HasKey(kept, KeyOf(lost[i])) {
      forall k
        ensures (k in full <==> k in cut) && (k in full ==> full[k] == cut[k])
      {
        VisibleKeyIsUnmoved(m, lost, kept, k);
      }
      assert full == cut;
    } else {
      var i :| 0 <= i < |lost| && !HasKey(kept, KeyOf(lost[i]));
      assert HasKey(lost, KeyOf(lost[i]));
      HiddenLatestShows(m, lost, kept, KeyOf(lost[i]));
    }
  }
}
