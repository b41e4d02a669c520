/** The cache as the program holds it: slots stored in place, cursors and epochs per ring place. */
module StateStore {
  import opened Common
  import opened StoreModel
  import StoreRuns

  class StateStore {
    const slots: array2<Option<Op>>
    const cursors: array<int>
    const epochs: array<int>
    const tombTTL: int
    var head: int
    var snap: Snap

    /** The value of StoreModel this object stands for. */
    function Value(): Store
      reads this, slots, cursors, epochs
      requires Sized()
    {
      Store(seq(cursors.Length, r requires 0 <= r < cursors.Length reads this, slots, cursors, epochs => SegmentAt(r)),
            slots.Length1, head, snap)
    }

    function SegmentAt(r: nat): Segment
      reads this, slots, cursors, epochs
      requires r < cursors.Length == epochs.Length == slots.Length0
    {
      Segment(seq(slots.Length1, j requires 0 <= j < slots.Length1 reads this, slots => slots[r, j]), cursors[r],
          epochs[r])
    }

    predicate Sized() reads this {
      0 < cursors.Length && cursors.Length == epochs.Length == slots.Length0 && 0 < slots.Length1 && cursors != epochs
    }

    ghost predicate Valid()
      reads this, slots, cursors, epochs
    {
      && Sized() && StoreRuns.Inv(Value())
      && (forall k :: k in snap.entries ==> KeyOf(snap.entries[k]) == k)
    }

    /** New: non-positive sizes fall back to 16 segments of 128 slots, a non-positive TTL to 30 seconds. */
    constructor (ringSize: int, segmentCapacity: int, ttl: int)
      ensures Valid() && fresh(slots) && fresh(cursors) && fresh(epochs)
      ensures tombTTL > 0 && (ttl > 0 ==> tombTTL == ttl) && (ttl <= 0 ==> tombTTL == 30)
      ensures Value() == StoreRuns.Init(if ringSize <= 0 then 16 else ringSize,
                                        if segmentCapacity <= 0 then 128 else segmentCapacity).store
    {
      var n := if ringSize <= 0 then 16 else ringSize;
      var c := if segmentCapacity <= 0 then 128 else segmentCapacity;
      slots := new Option<Op>[n, c]((i, j) => None);
      cursors := new int[n](i => 0);
      epochs := new int[n](i => 0);
      tombTTL := if ttl <= 0 then 30 else ttl;
      head := 0;
      snap := Snap(map[], 0, false, 0);
      new;
      forall r | 0 <= r < n
        ensures SegmentAt(r) == Segment(seq(c, _ => None), 0, 0)
      {
        assert SegmentAt(r).slots == seq(c, _ => None);
      }
      assert Value().ring == StoreRuns.Init(n, c).store.ring;
      StoreRuns.InitRefines(n, c);
    }

    /** One attempt at the head segment: it moves the cursor whether or not there is room. */
    method Claim(op: Op) returns (ok: bool)
      requires Sized() && Shaped(Value())
      modifies slots, cursors
      ensures Sized() && ok == !StoreRuns.HeadFull(old(Value()))
      ensures Value() == if ok then Put(old(Value()), op) else Overrun(old(Value()))
    {
      ghost var s := Value();
      var r := head % cursors.Length;
      var idx := cursors[r];
      assert SegAt(s, head) == SegmentAt(r);
      cursors[r] := idx + 1;
      ok := 0 <= idx < slots.Length1;
      if ok {
        slots[r, idx] := Some(op);
      }
      forall q | 0 <= q < cursors.Length
        ensures SegmentAt(q) == (if ok then Put(s, op) else Overrun(s)).ring[q]
      {
        if q != r {
          assert SegmentAt(q).slots == s.ring[q].slots;
        } else {
          assert SegmentAt(q).slots == if ok then s.ring[r].slots[idx := Some(op)] else s.ring[r].slots;
        }
      }
      assert Value().ring == (if ok then Put(s, op) else Overrun(s)).ring;
    }

    method Advance()
      requires Sized() && Shaped(Value())
      modifies this`head, cursors, epochs
      ensures Sized() && Value() == OpenNext(old(Value()))
    {
      ghost var s := Value();
      var next := head + 1;
      epochs[next % cursors.Length] := next / cursors.Length;
      cursors[next % cursors.Length] := 0;
      head := next;
      forall q | 0 <= q < cursors.Length
        ensures SegmentAt(q) == OpenNext(s).ring[q]
      {
        assert SegmentAt(q).slots == s.ring[q].slots;
      }
      assert Value().ring == OpenNext(s).ring;
    }

    /** Claims a slot, advancing to the next ring segment when the head is full. */
    method WriteOp(op: Op)
      requires Valid()
      modifies this, slots, cursors, epochs
      ensures Valid() && Value() == StoreModel.WriteOp(old(Value()), op) && snap == old(snap)
    {
      ghost var s := Value();
      StoreRuns.WriteKeepsRetained(s, op);
      if StoreRuns.HeadFull(s) {
        StoreRuns.FullHeadOpens(s);
      }
      hide Value, StoreRuns.Inv, Put, Overrun, OpenNext;
      var stored := Claim(op);
      while !stored
        invariant Sized() && snap == old(snap)
        invariant stored ==> Value() == StoreModel.WriteOp(s, op)
        invariant !stored ==> StoreRuns.HeadFull(s) && Value() == Overrun(s)
        decreases !stored
      {
        Advance();
        stored := Claim(op);
      }
    }

    /** Appends the ops of segment i from slot lo on that are newer than minOpID. */
    method CollectSegment(i: nat, lo: nat, minOpID: nat, ops: seq<Op>) returns (out: seq<Op>)
      requires Sized() && Shaped(Value())
      ensures out == ops + NewerOps(SegOps(Value(), i, lo), minOpID)
    {
      out := ops;
      var r := i % cursors.Length;
      assert SegAt(Value(), i) == SegmentAt(r);
      if epochs[r] != i / cursors.Length {
        return;
      }
      var n := if cursors[r] > slots.Length1 then slots.Length1 else cursors[r];
      if lo > n {
        return;
      }
      out := ScanRow(r, lo, n, SegmentAt(r).slots, minOpID, ops);
    }

    method ScanRow(r: nat, lo: nat, n: nat, ghost all: seq<Option<Op>>, minOpID: nat, ops: seq<Op>)
      returns (out: seq<Op>)
      requires r < slots.Length0 && lo <= n <= slots.Length1 == |all|
      requires forall j :: 0 <= j < |all| ==> all[j] == slots[r, j]
      ensures out == ops + NewerOps(Somes(all[lo..n]), minOpID)
    {
      hide NewerOps, Somes, IsNewer;
      out := ops;
      assert Somes(all[lo..lo]) == [] && NewerOps([], minOpID) == [] by {
        assert all[lo..lo] == [];
        SomesNone();
        NewerNone(minOpID);
      }
      for j := lo to n
        invariant out == ops + NewerOps(Somes(all[lo..j]), minOpID)
      {
        NewerStep(all, lo, j, minOpID);
        var slot := slots[r, j];
        if slot.Some? && IsNewer(slot.value, minOpID) {
          out := out + [slot.value];
        }
      }
    }

    /** The snapshot entries above minOpID, in whatever order the map yields them. */
    method ListEntries(minOpID: nat) returns (ops: seq<Op>)
      requires forall k :: k in snap.entries ==> KeyOf(snap.entries[k]) == k
      ensures Merge(map[], ops) == NewerMap(snap.entries, minOpID)
    {
      ops := [];
      var todo := snap.entries.Keys;
      ghost var m := snap.entries;
      assert NewerMap(Without(m, todo), minOpID) == map[];
      while todo != {}
        invariant todo <= m.Keys
        invariant Merge(map[], ops) == NewerMap(Without(m, todo), minOpID)
        decreases todo
      {
        hide NewerMap, Without;
        var k :| k in todo;
        ListStep(m, todo, k, minOpID);
        if IsNewer(snap.entries[k], minOpID) {
          AppendMerges(map[], ops, snap.entries[k]);
          ops := ops + [snap.entries[k]];
        }
        todo := todo - {k};
      }
      assert Without(m, {}) == m;
    }

    method CollectRange(start: nat, minOpID: nat, ops: seq<Op>) returns (out: seq<Op>)
      requires Sized() && Shaped(Value()) && start <= head + 1
      ensures out == ops + NewerOps(RangeOps(Value(), start, head), minOpID)
    {
      hide *;
      ghost var s := Value();
      out := ops;
      RangeNone(s, start, minOpID);
      for i := start to head + 1
        invariant out == ops + NewerOps(RangeOps(s, start, i - 1), minOpID)
      {
        RangeStep(s, start, i, minOpID);
        out := CollectSegment(i, 0, minOpID, out);
      }
    }

    /** New slots of a head segment that a compaction has already covered. */
    method CollectHead(minOpID: nat, ops: seq<Op>) returns (out: seq<Op>)
      requires Sized() && Shaped(Value())
      ensures out == ops + NewerOps(HeadExtra(Value()), minOpID)
    {
      if snap.compacted && snap.through == head {
        out := CollectSegment(head, snap.headCursor, minOpID, ops);
      } else {
        out := ops;
        NewerNone(minOpID);
      }
    }

    /** The compacted snapshot followed by every uncompacted op, filtered; deduplicated it is the filtered view. */
    method ReadOps(minOpID: nat) returns (ops: seq<Op>)
      requires Valid()
      ensures Merge(map[], ops) == NewerMap(View(Value()), minOpID)
    {
      ghost var s := Value();
      assert Shaped(s) && s.snap == snap && s.head == head && Start(s) <= head + 1;
      hide *;
      ops := ListEntries(minOpID);
      ghost var base := ops;
      ops := CollectHead(minOpID, ops);
      var start := if snap.compacted then snap.through + 1 else snap.through;
      assert start == Start(s) by { StartOf(s); }
      ops := CollectRange(start, minOpID, ops);
      PiecesMakeTheView(s, base, minOpID);
    }

    /** Snapshot(): what callers keep of it is exactly the view. */
    method Snapshot() returns (ops: seq<Op>)
      requires Valid()
      ensures Merge(map[], ops) == View(Value())
    {
      ops := ReadOps(0);
    }

    /** Since(id): the part of the view whose latest op is above id (everything for id 0). */
    method Since(opID: nat) returns (ops: seq<Op>)
      requires Valid()
      ensures Merge(map[], ops) == NewerMap(View(Value()), opID)
      ensures forall k :: k in Merge(map[], ops) <==> k in View(Value()) && (opID == 0 || View(Value())[k].opId > opID)
      ensures forall k :: k in Merge(map[], ops) ==> Merge(map[], ops)[k] == View(Value())[k]
    {
      ops := ReadOps(opID);
      hide View, Value, Merge;
    }

    method MergeSegment(i: nat, m: map<string, Op>) returns (out: map<string, Op>)
      requires Sized() && Shaped(Value())
      ensures out == Merge(m, SegOps(Value(), i, 0))
    {
      out := m;
      var r := i % cursors.Length;
      assert SegAt(Value(), i) == SegmentAt(r);
      if epochs[r] != i / cursors.Length {
        return;
      }
      var n := if cursors[r] > slots.Length1 then slots.Length1 else cursors[r];
      out := MergeRow(r, n, SegmentAt(r).slots, m);
    }

    method MergeRow(r: nat, n: nat, ghost all: seq<Option<Op>>, m: map<string, Op>) returns (out: map<string, Op>)
      requires r < slots.Length0 && n <= slots.Length1 == |all|
      requires forall j :: 0 <= j < |all| ==> all[j] == slots[r, j]
      ensures out == Merge(m, Somes(all[0..n]))
    {
      hide MergeOne;
      out := m;
      assert all[0..0] == [];
      for j := 0 to n
        invariant out == Merge(m, Somes(all[0..j]))
      {
        MergeStep(m, all, j);
        var slot := slots[r, j];
        if slot.Some? {
          out := MergeOne(out, slot.value);
        }
      }
    }

    method PurgeExpired(m: map<string, Op>, now: int) returns (out: map<string, Op>)
      ensures out == Purge(m, now, tombTTL)
    {
      out := m;
      if tombTTL > 0 {
        var todo := m.Keys;
        while todo != {}
          invariant todo <= m.Keys
          invariant out == map k | k in m && (k in todo || !Expired(m[k], now, tombTTL)) :: m[k]
          decreases todo
        {
          var k :| k in todo;
          todo := todo - {k};
          if Expired(m[k], now, tombTTL) {
            out := out - {k};
          }
        }
      }
    }

    method MergeRange(start: nat) returns (merged: map<string, Op>)
      requires Sized() && Shaped(Value()) && start <= head + 1
      ensures merged == Merge(snap.entries, RangeOps(Value(), start, head))
    {
      ghost var s := Value();
      merged := snap.entries;
      hide Value, SegOps;
      for i := start to head + 1
        invariant merged == Merge(snap.entries, RangeOps(s, start, i - 1))
      {
        MergeConcat(snap.entries, RangeOps(s, start, i - 1), SegOps(s, i, 0));
        merged := MergeSegment(i, merged);
      }
    }

    method ScanSegments(now: int) returns (merged: map<string, Op>)
      requires Valid()
      ensures merged == Scan(Value(), now, tombTTL) && forall k :: k in merged ==> KeyOf(merged[k]) == k
    {
      MergeKeyed(snap.entries, RangeOps(Value(), Start(Value()), head));
      hide RangeOps, Merge, StoreRuns.Inv;
      var start := if snap.compacted then snap.through + 1 else snap.through;
      merged := MergeRange(start);
      merged := PurgeExpired(merged, now);
    }

    /** Installs a scan of the segments up to h, with the cursor segment h has by now. */
    method Publish(h: nat, merged: map<string, Op>)
      requires Valid() && h <= head && forall k :: k in merged ==> KeyOf(merged[k]) == k
      modifies this`snap
      ensures Sized() && Value() == StoreModel.Publish(old(Value()), h, merged) && Valid()
    {
      ghost var s := Value();
      StoreRuns.PublishKeepsInv(s, h, merged);
      assert SegAt(s, h) == SegmentAt(h % cursors.Length);
      hide StoreRuns.Inv;
      var headCursor := cursors[h % cursors.Length];
      if headCursor > slots.Length1 {
        headCursor := slots.Length1;
      }
      snap := Snap(merged, h, true, headCursor);
      forall q | 0 <= q < cursors.Length
        ensures SegmentAt(q) == s.ring[q]
      {
        assert SegmentAt(q).slots == s.ring[q].slots;
      }
      assert Value().ring == s.ring;
    }

    /** Folds every uncompacted segment into a new snapshot; a covered head means there is nothing to do. */
    method Compact(now: int)
      requires Valid()
      modifies this`snap
      ensures Valid() && Value() == StoreModel.Compact(old(Value()), now, tombTTL)
    {
      if snap.compacted && head == snap.through {
        return;
      }
      hide StoreModel.Scan, StoreModel.Publish;
      var h := head;
      var merged := ScanSegments(now);
      Publish(h, merged);
    }
  }

  function Without(m: map<string, Op>, keys: set<string>): map<string, Op> { m - keys }

  lemma RangeNone(s: Store, lo: nat, minOpID: nat)
    requires Shaped(s)
    ensures NewerOps(RangeOps(s, lo, lo - 1), minOpID) == []
  {
  }

  lemma RangeStep(s: Store, lo: nat, i: nat, minOpID: nat)
    requires Shaped(s) && lo <= i
    ensures NewerOps(RangeOps(s, lo, i), minOpID)
         == NewerOps(RangeOps(s, lo, i - 1), minOpID) + NewerOps(SegOps(s, i, 0), minOpID)
  {
    NewerConcat(RangeOps(s, lo, i - 1), SegOps(s, i, 0), minOpID);
  }

  lemma SomesNone()
    ensures Somes([]) == []
  {
  }

  lemma NewerNone(minOpID: nat)
    ensures NewerOps([], minOpID) == []
  {
  }

  lemma ListStep(m: map<string, Op>, todo: set<string>, k: string, minOpID: nat)
    requires k in todo && todo <= m.Keys && KeyOf(m[k]) == k
    ensures NewerMap(Without(m, todo - {k}), minOpID)
         == if IsNewer(m[k], minOpID) then MergeOne(NewerMap(Without(m, todo), minOpID), m[k])
            else NewerMap(Without(m, todo), minOpID)
  {
  }

  lemma AppendMerges(m: map<string, Op>, ops: seq<Op>, op: Op)
    ensures Merge(m, ops + [op]) == MergeOne(Merge(m, ops), op)
  {
    assert (ops + [op])[..|ops + [op]| - 1] == ops;
  }

  predicate IsNewer(op: Op, minOpID: nat) { minOpID == 0 || op.opId > minOpID }

  function NewerOps(ops: seq<Op>, minOpID: nat): seq<Op> {
    if ops == [] then []
    else NewerOps(ops[..|ops| - 1], minOpID) + (if IsNewer(ops[|ops| - 1], minOpID) then [ops[|ops| - 1]] else [])
  }

  function NewerMap(m: map<string, Op>, minOpID: nat): map<string, Op> {
    map k | k in m && IsNewer(m[k], minOpID) :: m[k]
  }

  lemma {:induction false} NewerConcat(a: seq<Op>, b: seq<Op>, minOpID: nat)
    ensures NewerOps(a + b, minOpID) == NewerOps(a, minOpID) + NewerOps(b, minOpID)
  {
    if b == [] {
      assert a + b == a;
    } else {
      assert (a + b)[..|a + b| - 1] == a + b[..|b| - 1];
      NewerConcat(a, b[..|b| - 1], minOpID);
    }
  }

  lemma NewerStep(all: seq<Option<Op>>, lo: nat, j: nat, minOpID: nat)
    requires lo <= j < |all|
    ensures NewerOps(Somes(all[lo..j + 1]), minOpID)
         == NewerOps(Somes(all[lo..j]), minOpID)
            + (if all[j].Some? && IsNewer(all[j].value, minOpID) then [all[j].value] else [])
  {
    var more := if all[j].Some? then [all[j].value] else [];
    assert all[lo..j + 1][..j - lo] == all[lo..j];
    assert Somes(all[lo..j + 1]) == Somes(all[lo..j]) + more;
    NewerConcat(Somes(all[lo..j]), more, minOpID);
    assert |more| == 1 ==> more[..0] == [];
  }

  lemma MergeStep(m: map<string, Op>, all: seq<Option<Op>>, j: nat)
    requires j < |all|
    ensures Merge(m, Somes(all[0..j + 1]))
         == if all[j].Some? then MergeOne(Merge(m, Somes(all[0..j])), all[j].value) else Merge(m, Somes(all[0..j]))
  {
    assert all[0..j + 1][..j] == all[0..j];
    var before := Somes(all[0..j]);
    assert before + [] == before;
    if all[j].Some? {
      AppendMerges(m, before, all[j].value);
    }
  }

  lemma MergeOneNewer(m: map<string, Op>, op: Op, minOpID: nat)
    ensures NewerMap(MergeOne(m, op), minOpID)
         == if IsNewer(op, minOpID) then MergeOne(NewerMap(m, minOpID), op) else NewerMap(m, minOpID)
  {
  }

  lemma StartOf(s: Store)
    ensures Start(s) == if s.snap.compacted then s.snap.through + 1 else s.snap.through
  {
  }

  lemma PiecesMakeTheView(s: Store, base: seq<Op>, minOpID: nat)
    requires Shaped(s) && Merge(map[], base) == NewerMap(s.snap.entries, minOpID)
    ensures Start(s) >= 0
    ensures Merge(map[], base + NewerOps(HeadExtra(s), minOpID) + NewerOps(RangeOps(s, Start(s), s.head), minOpID))
         == NewerMap(View(s), minOpID)
  {
    var extra, range := HeadExtra(s), RangeOps(s, Start(s), s.head);
    hide NewerOps, Merge, NewerMap, HeadExtra, RangeOps, Shaped;
    NewerConcat(extra, range, minOpID);
    MergeConcat(map[], base, NewerOps(extra + range, minOpID));
    assert base + NewerOps(extra, minOpID) + NewerOps(range, minOpID) == base + NewerOps(extra + range, minOpID);
    MergeNewer(s.snap.entries, extra + range, minOpID);
  }

  /** Filtering the ops and then keeping the highest id is filtering the deduplicated view. */
  lemma {:induction false} MergeNewer(m: map<string, Op>, ops: seq<Op>, minOpID: nat)
    ensures Merge(NewerMap(m, minOpID), NewerOps(ops, minOpID)) == NewerMap(Merge(m, ops), minOpID)
  {
    if ops != [] {
      var init, last := ops[..|ops| - 1], ops[|ops| - 1];
      MergeNewer(m, init, minOpID);
      MergeOneNewer(Merge(m, init), last, minOpID);
      var before := NewerOps(init, minOpID);
      assert before + [] == before;
      AppendMerges(NewerMap(m, minOpID), before, last);
    }
  }

  lemma {:induction false} MergeKeyed(m: map<string, Op>, ops: seq<Op>)
    requires forall k :: k in m ==> KeyOf(m[k]) == k
    ensures forall k :: k in Merge(m, ops) ==> KeyOf(Merge(m, ops)[k]) == k
  {
    if ops != [] {
      MergeKeyed(m, ops[..|ops| - 1]);
    }
  }
}
