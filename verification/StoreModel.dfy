/**
 * The state cache as a value: a ring of segments, a compacted snapshot, and what readers make of the two.
 * Writers are taken one at a time.
 */
module StoreModel {
  import opened Common
  import opened RingArithmetic

  /** createdAt is 0 when the wall-clock time was never set. */
  datatype Op = Op(topic: string, key: string, value: string, opId: nat, nodeId: nat, tombstone: bool, createdAt: int)

  datatype Segment = Segment(slots: seq<Option<Op>>, cursor: int, epoch: int)

  datatype Snap = Snap(entries: map<string, Op>, through: int, compacted: bool, headCursor: int)

  datatype Store = Store(ring: seq<Segment>, segCap: nat, head: int, snap: Snap)

  function CompositeKey(topic: string, key: string): string { topic + ":" + key }

  function KeyOf(op: Op): string { CompositeKey(op.topic, op.key) }

  /** Distinct (topic, key) pairs stay distinct as long as topics carry no colon. */
  lemma CompositeKeyIsInjective(t1: string, k1: string, t2: string, k2: string)
    requires ':' !in t1 && ':' !in t2
    ensures CompositeKey(t1, k1) == CompositeKey(t2, k2) <==> t1 == t2 && k1 == k2
  {
    var c1, c2 := CompositeKey(t1, k1), CompositeKey(t2, k2);
    if c1 == c2 {
      assert c1[|t1|] == ':' && c2[|t2|] == ':';
      assert |t1| >= |t2| by {
        assert forall i :: 0 <= i < |t2| ==> t2[i] == c2[i];
      }
      assert |t2| >= |t1| by {
        assert forall i :: 0 <= i < |t1| ==> t1[i] == c1[i];
      }
      assert t1 == c1[..|t1|] && t2 == c2[..|t2|];
      assert k1 == c1[|t1| + 1..] && k2 == c2[|t2| + 1..];
    }
  }

  /** Two different topics share a composite key exactly when one continues the other with a colon. */
  lemma TopicsCollideExactly(t1: string, t2: string)
    requires t1 != t2 && |t1| <= |t2|
    ensures (exists k1, k2 :: CompositeKey(t1, k1) == CompositeKey(t2, k2)) <==> t1 + ":" <= t2
  {
    if k1, k2 :| CompositeKey(t1, k1) == CompositeKey(t2, k2) {
      var c := CompositeKey(t2, k2);
      assert t1 == c[..|t1|] && t2 == c[..|t2|] && c[|t1|] == ':';
      assert |t1| < |t2|;
      assert t2[..|t1|] == t1 && t2[|t1|] == c[|t1|];
      assert t2 == (t1 + ":") + t2[|t1| + 1..];
    }
    if t1 + ":" <= t2 {
      assert CompositeKey(t1, t2[|t1| + 1..] + ":") == CompositeKey(t2, "");
    }
  }

  /** Within one topic the composite key determines the key. */
  lemma SameTopicSameKey(topic: string, k1: string, k2: string)
    ensures CompositeKey(topic, k1) == CompositeKey(topic, k2) <==> k1 == k2
  {
    assert k1 == CompositeKey(topic, k1)[|topic| + 1..] && k2 == CompositeKey(topic, k2)[|topic| + 1..];
  }

  // ------------------------------------------------------------------ deduplication

  /** Keep the highest opId per key; the first of equals stays. */
  function MergeOne(m: map<string, Op>, op: Op): map<string, Op> {
    if KeyOf(op) !in m || op.opId > m[KeyOf(op)].opId then m[KeyOf(op) := op] else m
  }

  function Merge(m: map<string, Op>, ops: seq<Op>): map<string, Op> {
    if ops == [] then m else MergeOne(Merge(m, ops[..|ops| - 1]), ops[|ops| - 1])
  }

  /** The last op per key, whatever the ids. */
  function LastWins(m: map<string, Op>, ops: seq<Op>): map<string, Op> {
    if ops == [] then m else LastWins(m, ops[..|ops| - 1])[KeyOf(ops[|ops| - 1]) := ops[|ops| - 1]]
  }

  ghost predicate HasKey(ops: seq<Op>, k: string) { exists i :: 0 <= i < |ops| && KeyOf(ops[i]) == k }

  lemma {:induction false} MergeConcat(m: map<string, Op>, a: seq<Op>, b: seq<Op>)
    ensures Merge(m, a + b) == Merge(Merge(m, a), b)
  {
    if b == [] {
      assert a + b == a;
    } else {
      assert (a + b)[..|a + b| - 1] == a + b[..|b| - 1];
      MergeConcat(m, a, b[..|b| - 1]);
    }
  }

  lemma {:induction false} LastWinsConcat(m: map<string, Op>, a: seq<Op>, b: seq<Op>)
    ensures LastWins(m, a + b) == LastWins(LastWins(m, a), b)
  {
    if b == [] {
      assert a + b == a;
    } else {
      assert (a + b)[..|a + b| - 1] == a + b[..|b| - 1];
      LastWinsConcat(m, a, b[..|b| - 1]);
    }
  }

  /** Per key, ids strictly increase from the snapshot through the ops. */
  ghost predicate Ordered(m: map<string, Op>, ops: seq<Op>) {
    && (forall i :: 0 <= i < |ops| && KeyOf(ops[i]) in m ==> m[KeyOf(ops[i])].opId < ops[i].opId)
    && (forall i, j :: 0 <= i < j < |ops| && KeyOf(ops[i]) == KeyOf(ops[j]) ==> ops[i].opId < ops[j].opId)
  }

  /** A looked-up key comes from the last op that has it, or from the base map. */
  lemma {:induction false} LastWinsLookup(m: map<string, Op>, ops: seq<Op>, k: string)
    ensures HasKey(ops, k) ==>
              k in LastWins(m, ops) && exists i :: 0 <= i < |ops| && KeyOf(ops[i]) == k && LastWins(m, ops)[k] == ops[i]
    ensures !HasKey(ops, k) ==> (k in LastWins(m, ops) <==> k in m) && (k in m ==> LastWins(m, ops)[k] == m[k])
  {
    if ops != [] {
      var init, last := ops[..|ops| - 1], ops[|ops| - 1];
      LastWinsLookup(m, init, k);
      if HasKey(init, k) {
        var i :| 0 <= i < |init| && KeyOf(init[i]) == k;
        assert KeyOf(ops[i]) == k;
      }
      if KeyOf(last) == k {
        assert LastWins(m, ops)[k] == ops[|ops| - 1];
      } else if HasKey(init, k) {
        var i :| 0 <= i < |init| && KeyOf(init[i]) == k && LastWins(m, init)[k] == init[i];
        assert LastWins(m, ops)[k] == ops[i];
      } else {
        assert !HasKey(ops, k);
      }
    }
  }

  /** The base map does not matter for a key the ops have. */
  lemma {:induction false} LastWinsForgets(m: map<string, Op>, n: map<string, Op>, ops: seq<Op>, k: string)
    requires HasKey(ops, k)
    ensures k in LastWins(m, ops) && k in LastWins(n, ops) && LastWins(m, ops)[k] == LastWins(n, ops)[k]
  {
    var init, last := ops[..|ops| - 1], ops[|ops| - 1];
    if KeyOf(last) != k {
      var i :| 0 <= i < |ops| && KeyOf(ops[i]) == k;
      assert KeyOf(init[i]) == k;
      LastWinsForgets(m, n, init, k);
    }
  }

  /** With increasing ids, highest-id-wins and last-wins agree. */
  lemma {:induction false} MergeIsLastWins(m: map<string, Op>, ops: seq<Op>)
    requires Ordered(m, ops)
    ensures Merge(m, ops) == LastWins(m, ops)
  {
    if ops != [] {
      var init, last := ops[..|ops| - 1], ops[|ops| - 1];
      MergeIsLastWins(m, init);
      LastWinsLookup(m, init, KeyOf(last));
    }
  }

  // ------------------------------------------------------------------ reading

  function Somes(slots: seq<Option<Op>>): seq<Op> {
    if slots == [] then []
    else
      Somes(slots[..|slots| - 1]) + (if slots[|slots| - 1].Some? then [slots[|slots| - 1].value] else [])
  }

  predicate Shaped(s: Store) {
    && |s.ring| > 0 && s.segCap > 0 && s.head >= 0 && 0 <= s.snap.through <= s.head && s.snap.headCursor >= 0
    && forall r :: 0 <= r < |s.ring| ==> |s.ring[r].slots| == s.segCap && s.ring[r].cursor >= 0
  }

  function SegAt(s: Store, i: nat): Segment
    requires |s.ring| > 0
  {
    s.ring[i % |s.ring|]
  }

  /** The cursor of a segment, clipped to its capacity. */
  function Filled(s: Store, i: nat): nat
    requires Shaped(s)
  {
    Min(SegAt(s, i).cursor, s.segCap)
  }

  predicate Current(s: Store, i: nat)
    requires |s.ring| > 0
  {
    SegAt(s, i).epoch == i / |s.ring|
  }

  /** The ops of segment number i from slot lo on, if its ring place has not been taken over. */
  function SegOps(s: Store, i: nat, lo: nat): seq<Op>
    requires Shaped(s)
  {
    if Current(s, i) && lo <= Filled(s, i) then Somes(SegAt(s, i).slots[lo..Filled(s, i)]) else []
  }

  function RangeOps(s: Store, lo: nat, hi: int): seq<Op>
    requires Shaped(s)
    decreases hi - lo
  {
    if hi < lo then [] else RangeOps(s, lo, hi - 1) + SegOps(s, hi, 0)
  }

  function Start(s: Store): int { if s.snap.compacted then s.snap.through + 1 else s.snap.through }

  predicate HeadCovered(s: Store) { s.snap.compacted && s.snap.through == s.head }

  /** Ops written to the head segment after a compaction covered it. */
  function HeadExtra(s: Store): seq<Op>
    requires Shaped(s)
  {
    if HeadCovered(s) then SegOps(s, s.head, s.snap.headCursor) else []
  }

  function Uncompacted(s: Store): seq<Op>
    requires Shaped(s)
  {
    HeadExtra(s) + RangeOps(s, Start(s), s.head)
  }

  /** What every reader sees after keeping the highest id per key. */
  function View(s: Store): map<string, Op>
    requires Shaped(s)
  {
    Merge(s.snap.entries, Uncompacted(s))
  }

  // ------------------------------------------------------------------ writing and compacting

  function SetSegment(s: Store, i: nat, seg: Segment): Store
    requires |s.ring| > 0
  {
    s.(ring := s.ring[i % |s.ring| := seg])
  }

  /** Claim the next slot of the head segment. */
  function Put(s: Store, op: Op): Store
    requires Shaped(s) && SegAt(s, s.head).cursor < s.segCap
  {
    var seg := SegAt(s, s.head);
    SetSegment(s, s.head, seg.(slots := seg.slots[seg.cursor := Some(op)], cursor := seg.cursor + 1))
  }

  /** A claim that finds the head segment full still moves its cursor. */
  function Overrun(s: Store): Store
    requires Shaped(s)
  {
    SetSegment(s, s.head, SegAt(s, s.head).(cursor := SegAt(s, s.head).cursor + 1))
  }

  /** The next segment is given its epoch and an empty cursor, then becomes the head. */
  function OpenNext(s: Store): Store
    requires Shaped(s)
  {
    var next := s.head + 1;
    SetSegment(s, next, SegAt(s, next).(epoch := next / |s.ring|, cursor := 0)).(head := next)
  }

  function AdvanceHead(s: Store): Store
    requires Shaped(s)
  {
    OpenNext(Overrun(s))
  }

  function WriteOp(s: Store, op: Op): Store
    requires Shaped(s)
  {
    if SegAt(s, s.head).cursor < s.segCap then Put(s, op) else Put(AdvanceHead(s), op)
  }

  predicate Expired(op: Op, now: int, ttl: int) {
    op.tombstone && op.createdAt != 0 && op.createdAt < now - ttl
  }

  function Purge(m: map<string, Op>, now: int, ttl: int): map<string, Op> {
    if ttl > 0 then map k | k in m && !Expired(m[k], now, ttl) :: m[k] else m
  }

  /**
   * The first half of a compaction: the snapshot merged with every segment up to the head, expired tombstones purged.
   */
  function Scan(s: Store, now: int, ttl: int): map<string, Op>
    requires Shaped(s)
  {
    Purge(Merge(s.snap.entries, RangeOps(s, Start(s), s.head)), now, ttl)
  }

  /** The second half: the cursor of the segment scanned last is read, and the snapshot installed. */
  function Publish(s: Store, h: nat, entries: map<string, Op>): Store
    requires Shaped(s)
  {
    s.(snap := Snap(entries, h, true, Filled(s, h)))
  }

  /** Both halves with no write in between. */
  function Compact(s: Store, now: int, ttl: int): Store
    requires Shaped(s)
  {
    if HeadCovered(s) then s else Publish(s, s.head, Scan(s, now, ttl))
  }

  /** ops[i] has the key, no op of the key has a greater id, and no earlier one has the same. */
  ghost predicate IsFirstGreatest(ops: seq<Op>, k: string, i: nat) {
    && i < |ops| && KeyOf(ops[i]) == k
    && (forall j :: 0 <= j < |ops| && KeyOf(ops[j]) == k ==> ops[j].opId <= ops[i].opId)
    && (forall j :: 0 <= j < i && KeyOf(ops[j]) == k ==> ops[j].opId < ops[i].opId)
  }

  lemma FirstGreatestStep(ops: seq<Op>, last: Op, k: string, i: nat)
    requires IsFirstGreatest(ops, k, i)
    ensures IsFirstGreatest(ops + [last], k, if KeyOf(last) == k && last.opId > ops[i].opId then |ops| else i)
  {
    hide KeyOf;
  }

  lemma FirstOfItsKey(ops: seq<Op>, last: Op, k: string)
    requires !HasKey(ops, k) && KeyOf(last) == k
    ensures IsFirstGreatest(ops + [last], k, |ops|)
  {
    hide KeyOf;
  }

  /** Of the ops of a key the merge keeps one with the greatest id, and of several such the first. */
  lemma {:induction false} MergeKeepsTheFirstGreatest(ops: seq<Op>, k: string)
    ensures k in Merge(map[], ops) <==> HasKey(ops, k)
    ensures HasKey(ops, k) ==>
              exists i: nat :: i < |ops| && IsFirstGreatest(ops, k, i) && Merge(map[], ops)[k] == ops[i]
  {
    hide KeyOf, IsFirstGreatest;
    if ops != [] {
      var init, last := ops[..|ops| - 1], ops[|ops| - 1];
      assert init + [last] == ops;
      MergeKeepsTheFirstGreatest(init, k);
      if HasKey(init, k) {
        var i: nat :| i < |init| && IsFirstGreatest(init, k, i) && Merge(map[], init)[k] == init[i];
        HasKeyAppends(init, last, k);
        FirstGreatestStep(init, last, k, i);
      } else {
        HasKeyAppends(init, last, k);
        if KeyOf(last) == k { FirstOfItsKey(init, last, k); }
      }
    }
  }

  lemma HasKeyAppends(ops: seq<Op>, last: Op, k: string)
    ensures HasKey(ops + [last], k) <==> HasKey(ops, k) || KeyOf(last) == k
  {
    hide KeyOf;
    if i :| 0 <= i < |ops| && KeyOf(ops[i]) == k { assert (ops + [last])[i] == ops[i]; }
    if KeyOf(last) == k { assert (ops + [last])[|ops|] == last; }
  }

  /**
   * Compaction leaves what every reader sees unchanged, except that an effective one removes expired
   * tombstones: in every state, across epochs, ring passes and partly filled heads.
   */
  lemma CompactPreservesView(s: Store, now: int, ttl: int)
    requires Shaped(s)
    ensures Shaped(Compact(s, now, ttl))
    ensures View(Compact(s, now, ttl)) == if HeadCovered(s) then View(s) else Purge(View(s), now, ttl)
    ensures !HeadCovered(s) ==> Uncompacted(Compact(s, now, ttl)) == []
  {
    var t := Compact(s, now, ttl);
    if !HeadCovered(s) {
      assert Uncompacted(s) == RangeOps(s, Start(s), s.head);
      assert SegAt(t, t.head).slots[t.snap.headCursor..Filled(t, t.head)] == [];
    }
  }

  /**
   * What a compaction takes out of the view: nothing but tombstones, and of those exactly the ones stamped longer ago
   * than the time to live, when there is one. Every other key keeps its op, and none appears.
   */
  lemma CompactRemovesExactly(s: Store, now: int, ttl: int, k: string)
    requires Shaped(s) && Shaped(Compact(s, now, ttl))
    ensures k !in View(s) ==> k !in View(Compact(s, now, ttl))
    ensures k in View(s) ==>
              var op := View(s)[k];
              k !in View(Compact(s, now, ttl)) <==>
                !(s.snap.compacted && s.snap.through == s.head) && ttl > 0
                && op.tombstone && op.createdAt != 0 && op.createdAt < now - ttl
    ensures k in View(s) && k in View(Compact(s, now, ttl)) ==> View(Compact(s, now, ttl))[k] == View(s)[k]
  {
    CompactPreservesView(s, now, ttl);
    hide View, Compact;
  }

  /** A value that is not a tombstone outlives every compaction. */
  lemma LiveValuesStay(s: Store, now: int, ttl: int, k: string)
    requires Shaped(s) && Shaped(Compact(s, now, ttl)) && k in View(s) && !View(s)[k].tombstone
    ensures k in View(Compact(s, now, ttl)) && View(Compact(s, now, ttl))[k] == View(s)[k]
  {
    CompactRemovesExactly(s, now, ttl, k);
    hide View, Compact;
  }
}
