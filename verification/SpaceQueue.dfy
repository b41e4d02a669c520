/** The coalescing op queue: one op per key, drained in any order. */
module SpaceQueue {
  import opened Common
  import opened Scope
  import opened SpaceModel

  type Key = (string, string)

  type Queue = map<Key, Op>

  function KeyOf(op: Op): Key { (op.topic, op.key) }

  /** enqueueOp: an older op for a queued key is dropped, an equal or newer one replaces. */
  function Enqueue(q: Queue, op: Op): Queue {
    if KeyOf(op) in q && op.opId < q[KeyOf(op)].opId then q else q[KeyOf(op) := op]
  }

  function EnqueueAll(q: Queue, ops: seq<Op>): Queue {
    if ops == [] then q else Enqueue(EnqueueAll(q, ops[..|ops| - 1]), ops[|ops| - 1])
  }

  function LastOf(ops: seq<Op>, k: Key): (r: Option<Op>)
    ensures r.Some? ==> KeyOf(r.value) == k && r.value in ops
    ensures r.None? ==> forall i :: 0 <= i < |ops| ==> KeyOf(ops[i]) != k
  {
    if ops == [] then None
    else if KeyOf(ops[|ops| - 1]) == k then Some(ops[|ops| - 1])
    else LastOf(ops[..|ops| - 1], k)
  }

  /** Ops of one key arrive with ids that never decrease. */
  ghost predicate NonDecreasing(ops: seq<Op>) {
    forall i, j :: 0 <= i < j < |ops| && KeyOf(ops[i]) == KeyOf(ops[j]) ==> ops[i].opId <= ops[j].opId
  }

  /** With ids that never decrease, the queue holds the last op of each key. */
  lemma {:induction false} QueueHoldsTheLast(ops: seq<Op>, k: Key)
    requires NonDecreasing(ops)
    ensures var q := EnqueueAll(map[], ops); if k in q then LastOf(ops, k) == Some(q[k]) else LastOf(ops, k) == None
  {
    if ops != [] {
      var init, last := ops[..|ops| - 1], ops[|ops| - 1];
      QueueHoldsTheLast(init, k);
      var q := EnqueueAll(map[], init);
      if KeyOf(last) == k && k in q {
        var i :| 0 <= i < |init| && init[i] == q[k];
        assert ops[i] == q[k];
      }
    }
  }

  /** ops[i] has the key, no op of the key has a greater id, and no later one has the same. */
  ghost predicate IsLastGreatest(ops: seq<Op>, k: Key, i: nat) {
    && i < |ops| && KeyOf(ops[i]) == k
    && (forall j :: 0 <= j < |ops| && KeyOf(ops[j]) == k ==> ops[j].opId <= ops[i].opId)
    && (forall j :: i < j < |ops| && KeyOf(ops[j]) == k ==> ops[j].opId < ops[i].opId)
  }

  lemma LastGreatestStep(ops: seq<Op>, last: Op, k: Key, i: nat)
    requires IsLastGreatest(ops, k, i)
    ensures IsLastGreatest(ops + [last], k, if KeyOf(last) == k && last.opId >= ops[i].opId then |ops| else i)
  {
  }

  lemma OnlyOfItsKey(ops: seq<Op>, last: Op, k: Key)
    requires (forall i :: 0 <= i < |ops| ==> KeyOf(ops[i]) != k) && KeyOf(last) == k
    ensures IsLastGreatest(ops + [last], k, |ops|)
  {
  }

  /** Whatever the ids: the queue holds, of the ops of a key with the greatest id, the one that came last. */
  lemma {:induction false} QueueHoldsTheLastGreatest(ops: seq<Op>, k: Key)
    ensures k in EnqueueAll(map[], ops) <==> exists i :: 0 <= i < |ops| && KeyOf(ops[i]) == k
    ensures k in EnqueueAll(map[], ops) ==>
              exists i: nat :: i < |ops| && IsLastGreatest(ops, k, i) && EnqueueAll(map[], ops)[k] == ops[i]
  {
    hide IsLastGreatest;
    if ops != [] {
      var init, last := ops[..|ops| - 1], ops[|ops| - 1];
      assert init + [last] == ops;
      QueueHoldsTheLastGreatest(init, k);
      EnqueuedIsWellKeyed(init);
      if k in EnqueueAll(map[], init) {
        var i: nat :| i < |init| && IsLastGreatest(init, k, i) && EnqueueAll(map[], init)[k] == init[i];
        LastGreatestStep(init, last, k, i);
        assert KeyOf(ops[i]) == k;
      } else if KeyOf(last) == k {
        assert forall i :: 0 <= i < |init| ==> init[i] == ops[i];
        OnlyOfItsKey(init, last, k);
      }
    }
  }

  /** Every key of the queue, once, in some order. */
  ghost predicate IsDrainOrder(q: Queue, order: seq<Key>) {
    && (forall k :: k in order <==> k in q)
    && (forall i, j :: 0 <= i < j < |order| ==> order[i] != order[j])
  }

  function Drained(q: Queue, order: seq<Key>): seq<Op>
    requires forall k :: k in order ==> k in q
  {
    seq(|order|, i requires 0 <= i < |order| => q[order[i]])
  }

  lemma {:induction false} DrainOrderExists(q: Queue) returns (order: seq<Key>)
    ensures IsDrainOrder(q, order)
    decreases |q|
  {
    if q == map[] {
      order := [];
    } else {
      var k :| k in q;
      assert (q - {k}).Keys == q.Keys - {k};
      var rest := DrainOrderExists(q - {k});
      order := rest + [k];
    }
  }

  ghost predicate WellKeyed(q: Queue) { forall k :: k in q ==> KeyOf(q[k]) == k }

  lemma {:induction false} EnqueuedIsWellKeyed(ops: seq<Op>)
    ensures WellKeyed(EnqueueAll(map[], ops))
  {
    if ops != [] { EnqueuedIsWellKeyed(ops[..|ops| - 1]); }
  }

  /** Every uuid in the keys of the ops is in printed text. */
  predicate AllPrinted(c: Codec, ops: seq<Op>) {
    forall i :: 0 <= i < |ops| ==> PrintedKey(c, ops[i].topic, ops[i].key)
  }

  predicate PrintedKeys(c: Codec, keys: set<Key>) { forall k :: k in keys ==> PrintedKey(c, k.0, k.1) }

  lemma {:induction false} EnqueuedIsPrinted(c: Codec, ops: seq<Op>)
    requires AllPrinted(c, ops)
    ensures PrintedKeys(c, EnqueueAll(map[], ops).Keys)
  {
    hide PrintedKey;
    if ops != [] { EnqueuedIsPrinted(c, ops[..|ops| - 1]); }
  }

  /** In whatever order the queue is drained, at most one op acts on a cell: the one queued under the cell's key. */
  lemma DrainedActing(c: Codec, q: Queue, order: seq<Key>, x: Cell)
    requires PrintedKeys(c, q.Keys) && WellKeyed(q) && IsDrainOrder(q, order)
    ensures LastActing(c, Drained(q, order), x) ==
            if KeyFor(c, x) in q && ActsOn(c, q[KeyFor(c, x)], x) then Some(q[KeyFor(c, x)]) else None
  {
    var ops, k := Drained(q, order), KeyFor(c, x);
    hide CellOf, KeyFor, PrintedKey;
    var r := LastActing(c, ops, x);
    if r.Some? {
      KeyIsDetermined(c, r.value.topic, r.value.key);
      var i :| 0 <= i < |ops| && ops[i] == r.value;
      assert order[i] == k;
    } else if k in q {
      var i :| 0 <= i < |order| && order[i] == k;
      assert ops[i] == q[k];
    }
  }

  /**
   * Whenever an op acts, the last op of its key acts too: no set with a malformed value is last after one that counted.
   */
  ghost predicate Complete(c: Codec, ops: seq<Op>) {
    forall i :: 0 <= i < |ops| && Acts(c, ops[i]) ==> Acts(c, LastOf(ops, KeyOf(ops[i])).value)
  }

  /** The last op to act on a cell shares the cell's key with the last op of that key. */
  lemma {:induction false} LastActingHasTheKey(c: Codec, ops: seq<Op>, x: Cell)
    requires AllPrinted(c, ops)
    ensures LastActing(c, ops, x).Some? ==>
              KeyOf(LastActing(c, ops, x).value) == KeyFor(c, x) && LastOf(ops, KeyFor(c, x)).Some?
    ensures LastOf(ops, KeyFor(c, x)).Some? && ActsOn(c, LastOf(ops, KeyFor(c, x)).value, x) ==>
              LastActing(c, ops, x) == LastOf(ops, KeyFor(c, x))
  {
    hide CellOf, KeyFor, PrintedKey;
    if ops != [] {
      var last := ops[|ops| - 1];
      LastActingHasTheKey(c, ops[..|ops| - 1], x);
      if ActsOn(c, last, x) { KeyIsDetermined(c, last.topic, last.key); }
    }
  }

  /** Coalescing and draining in any order leaves exactly what applying every op in arrival order leaves. */
  lemma AnyOrderIsArrivalOrder(c: Codec, s: Space, ops: seq<Op>, order: seq<Key>)
    requires AllPrinted(c, ops) && NonDecreasing(ops) && Complete(c, ops)
    requires IsDrainOrder(EnqueueAll(map[], ops), order)
    ensures ApplyAll(c, s, Drained(EnqueueAll(map[], ops), order)) == ApplyAll(c, s, ops)
  {
    var q := EnqueueAll(map[], ops);
    EnqueuedIsWellKeyed(ops);
    EnqueuedIsPrinted(c, ops);
    var a, b := ApplyAll(c, s, Drained(q, order)), ApplyAll(c, s, ops);
    forall x
      ensures Read(a, x) == Read(b, x) && SameFrame(s, a) && SameFrame(s, b)
    {
      AllReads(c, s, Drained(q, order), x);
      AllReads(c, s, ops, x);
      DrainedActing(c, q, order, x);
      QueueHoldsTheLast(ops, KeyFor(c, x));
      CompleteAgrees(c, ops, x);
      hide Read, Intended, ApplyAll, Complete, IsDrainOrder, WellKeyed, NonDecreasing;
    }
    AllReads(c, s, ops, Muted(0));
    CellsAreAll(a, b);
  }

  lemma CompleteAgrees(c: Codec, ops: seq<Op>, x: Cell)
    requires AllPrinted(c, ops) && Complete(c, ops)
    ensures LastActing(c, ops, x) ==
            var r := LastOf(ops, KeyFor(c, x)); if r.Some? && ActsOn(c, r.value, x) then r else None
  {
    LastActingHasTheKey(c, ops, x);
    hide CellOf, KeyFor;
    var r := LastActing(c, ops, x);
    if r.Some? {
      var i :| 0 <= i < |ops| && ops[i] == r.value;
      var l := LastOf(ops, KeyOf(ops[i])).value;
      assert Acts(c, l);
      assert l.topic == r.value.topic && l.key == r.value.key;
    }
  }

  // ------------------------------------------------------------------ and only then

  /** A space in which x holds something other than op would leave there. */
  function Contrary(x: Cell, op: Op): Space
    requires Numeric(x) && (!op.tombstone ==> op.value.Some?)
  {
    var rules := Rules({}, map[], map[]);
    var other := if op.tombstone then 1.0 else op.value.value + 1.0;
    match x
    case Gain(id) => Space(map[id := Own(other, 0.0, 0.0, 0.0, false, {}, {}, {}, {})], rules)
    case Attenuation(id) => Space(map[id := Own(0.0, other, 0.0, 0.0, false, {}, {}, {}, {})], rules)
    case RoleGain(role) => Space(map[], rules.(gains := map[role := other]))
    case RoleAttenuation(role) => Space(map[], rules.(attenuations := map[role := other]))
    case _ => Space(map[], rules)
  }

  lemma ContraryDiffers(x: Cell, op: Op)
    requires Numeric(x) && (!op.tombstone ==> op.value.Some?)
    ensures Read(Contrary(x, op), x) != Intended(Contrary(x, op), x, op)
  {
  }

  /** An incomplete batch goes wrong on some space, in every drain order. */
  lemma IncompleteGoesWrong(c: Codec, ops: seq<Op>, order: seq<Key>) returns (s: Space)
    requires AllPrinted(c, ops) && NonDecreasing(ops) && !Complete(c, ops)
    requires IsDrainOrder(EnqueueAll(map[], ops), order)
    ensures ApplyAll(c, s, Drained(EnqueueAll(map[], ops), order)) != ApplyAll(c, s, ops)
  {
    var q := EnqueueAll(map[], ops);
    EnqueuedIsWellKeyed(ops);
    EnqueuedIsPrinted(c, ops);
    var i :| 0 <= i < |ops| && Acts(c, ops[i]) && !Acts(c, LastOf(ops, KeyOf(ops[i])).value);
    var x := CellOf(c, ops[i].topic, ops[i].key).value;
    KeyIsDetermined(c, ops[i].topic, ops[i].key);
    var op := LastActing(c, ops, x).value;
    s := Contrary(x, op);
    ContraryDiffers(x, op);
    AllReads(c, s, ops, x);
    AllReads(c, s, Drained(q, order), x);
    DrainedActing(c, q, order, x);
    QueueHoldsTheLast(ops, KeyFor(c, x));
    hide CellOf, KeyFor, Read, Intended, Contrary, ApplyAll;
  }

  /** Coalescing is invisible on every space and in every drain order exactly when the batch is complete. */
  lemma CoalescingIsExact(c: Codec, ops: seq<Op>)
    requires AllPrinted(c, ops) && NonDecreasing(ops)
    ensures (forall s, order :: IsDrainOrder(EnqueueAll(map[], ops), order) ==>
               ApplyAll(c, s, Drained(EnqueueAll(map[], ops), order)) == ApplyAll(c, s, ops))
            <==> Complete(c, ops)
  {
    if Complete(c, ops) {
      forall s, order | IsDrainOrder(EnqueueAll(map[], ops), order)
        ensures ApplyAll(c, s, Drained(EnqueueAll(map[], ops), order)) == ApplyAll(c, s, ops)
      {
        AnyOrderIsArrivalOrder(c, s, ops, order);
      }
    } else {
      var order := DrainOrderExists(EnqueueAll(map[], ops));
      var s := IncompleteGoesWrong(c, ops, order);
    }
  }
}
