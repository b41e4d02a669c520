/** The first-fit slot allocator behind the per-peer weight buffers. */
module Slots {
  import opened Common
  import opened Scope

  /** slots is NodeUuidBySlot, index the SlotIndex of each node, peak the most nodes there have been at once. */
  datatype Table = Table(slots: seq<Uuid>, index: map<Uuid, nat>, peak: nat)

  datatype Event = Add(u: Uuid) | Remove(u: Uuid)

  /** The first slot that looks empty, or the length of the table. */
  function FirstFree(slots: seq<Uuid>): (r: nat)
    ensures r <= |slots| && (r < |slots| ==> slots[r] == NIL) && forall i :: 0 <= i < r ==> slots[i] != NIL
  {
    if slots == [] || slots[0] == NIL then 0 else 1 + FirstFree(slots[1..])
  }

  function Occupy(slots: seq<Uuid>, u: Uuid): seq<Uuid> {
    if FirstFree(slots) < |slots| then slots[FirstFree(slots) := u] else slots + [u]
  }

  function Vacate(slots: seq<Uuid>, i: nat): seq<Uuid> { if i < |slots| then slots[i := NIL] else slots }

  function Step(t: Table, e: Event): Table {
    match e
    case Add(u) =>
      if u in t.index then t
      else Table(Occupy(t.slots, u), t.index[u := FirstFree(t.slots)], Max(t.peak, |t.index| + 1))
    case Remove(u) =>
      if u !in t.index then t else t.(slots := Vacate(t.slots, t.index[u]), index := t.index - {u})
  }

  const EMPTY := Table([], map[], 0)

  function Run(es: seq<Event>): Table { if es == [] then EMPTY else Step(Run(es[..|es| - 1]), es[|es| - 1]) }

  /** Slot table and node map are inverse to each other. */
  ghost predicate Inverse(t: Table) {
    && (forall u :: u in t.index ==> t.index[u] < |t.slots| && t.slots[t.index[u]] == u)
    && (forall i :: 0 <= i < |t.slots| && t.slots[i] != NIL ==> t.slots[i] in t.index && t.index[t.slots[i]] == i)
  }

  /** As many nodes as occupied slots: when no slot is free there are exactly as many nodes as slots. */
  lemma FullTable(t: Table)
    requires Inverse(t) && NIL !in t.index
    ensures |t.index| <= |t.slots|
    ensures FirstFree(t.slots) == |t.slots| ==> |t.index| == |t.slots|
  {
    var used := set u | u in t.index :: t.index[u];
    InjectiveImage(t, t.index.Keys, used);
    var all := Below(|t.slots|);
    SubsetSize(used, all);
    if FirstFree(t.slots) == |t.slots| {
      forall i | i in all ensures i in used { assert t.index[t.slots[i]] == i; }
      assert used == all;
    }
  }

  lemma {:induction false} InjectiveImage(t: Table, nodes: set<Uuid>, used: set<nat>)
    requires Inverse(t) && nodes <= t.index.Keys && used == set u | u in nodes :: t.index[u]
    ensures |used| == |nodes|
    decreases |nodes|
  {
    if nodes != {} {
      var u :| u in nodes;
      var rest := nodes - {u};
      var less := set x | x in rest :: t.index[x];
      InjectiveImage(t, rest, less);
      assert t.index[u] !in less;
      assert used == less + {t.index[u]};
    } else {
      assert used == {};
    }
  }

  function Below(n: nat): (r: set<nat>)
    ensures |r| == n && forall i: nat :: i in r <==> i < n
  {
    if n == 0 then {} else Below(n - 1) + {n - 1}
  }

  lemma {:induction false} SubsetSize(a: set<nat>, b: set<nat>)
    requires a <= b
    ensures |a| <= |b|
    decreases |a|
  {
    if a != {} {
      var x :| x in a;
      SubsetSize(a - {x}, b - {x});
    }
  }

  lemma AddKeepsInverse(t: Table, u: Uuid)
    requires Inverse(t) && NIL !in t.index && u != NIL
    ensures Inverse(Step(t, Add(u)))
  {
  }

  lemma RemoveKeepsInverse(t: Table, u: Uuid)
    requires Inverse(t)
    ensures Inverse(Step(t, Remove(u)))
  {
  }

  /** Live nodes have distinct slots. */
  lemma SlotsAreDistinct(t: Table, u: Uuid, v: Uuid)
    requires Inverse(t) && u in t.index && v in t.index && u != v
    ensures t.index[u] != t.index[v]
  {
  }

  /** Of two nodes added in a row the second gets the first one's slot exactly when the first has the nil uuid. */
  lemma OnlyNilIsOverwritten(t: Table, u: Uuid, v: Uuid)
    requires Inverse(t) && NIL !in t.index && u !in t.index && v !in t.index && u != v && v != NIL
    ensures var both := Step(Step(t, Add(u)), Add(v));
            && (both.index[u] == both.index[v] <==> u == NIL)
            && (Inverse(both) <==> u != NIL)
  {
    var once := Step(t, Add(u));
    if u == NIL {
      FirstFreeIsFirst(once.slots, FirstFree(t.slots));
    } else {
      AddKeepsInverse(t, u);
      AddKeepsInverse(once, v);
      SlotsAreDistinct(Step(once, Add(v)), u, v);
    }
  }

  lemma FirstFreeIsFirst(slots: seq<Uuid>, r: nat)
    requires r < |slots| && slots[r] == NIL && forall i :: 0 <= i < r ==> slots[i] != NIL
    ensures FirstFree(slots) == r
  {
  }

  /**
   * After every run of adds and removes of proper uuids the table is the inverse of the node map and as long as the
   * peak.
   */
  lemma {:induction false} RunsKeepTheTable(es: seq<Event>)
    requires forall i :: 0 <= i < |es| ==> es[i] != Add(NIL)
    ensures var t := Run(es); Inverse(t) && NIL !in t.index && |t.index| <= |t.slots| == Most(es)
  {
    RunsAreGood(es);
    PeakIsTheMost(es);
  }

  lemma {:induction false} RunsAreGood(es: seq<Event>)
    requires forall i :: 0 <= i < |es| ==> es[i] != Add(NIL)
    ensures Good(Run(es))
  {
    if es != [] {
      RunsAreGood(es[..|es| - 1]);
      StepKeepsTheTable(Run(es[..|es| - 1]), es[|es| - 1]);
    }
  }

  ghost predicate Good(t: Table) { Inverse(t) && NIL !in t.index && |t.index| <= |t.slots| == t.peak }

  lemma StepKeepsTheTable(t: Table, e: Event)
    requires Good(t) && e != Add(NIL)
    ensures Good(Step(t, e))
  {
    match e
    case Add(u) => if u !in t.index { AddIsGood(t, u); }
    case Remove(u) => if u in t.index { RemoveIsGood(t, u); }
  }

  lemma AddIsGood(t: Table, u: Uuid)
    requires Good(t) && u != NIL && u !in t.index
    ensures Good(Step(t, Add(u)))
  {
    var n := Step(t, Add(u));
    FullTable(t);
    AddKeepsInverse(t, u);
    FullTable(n);
    assert n.index.Keys == t.index.Keys + {u};
    hide Inverse;
  }

  lemma RemoveIsGood(t: Table, u: Uuid)
    requires Good(t) && u in t.index
    ensures Good(Step(t, Remove(u)))
  {
    var n := Step(t, Remove(u));
    RemoveKeepsInverse(t, u);
    FullTable(n);
    assert |n.slots| == |t.slots|;
    hide Inverse;
  }

  /** The most nodes there were after any prefix of the run. */
  function Most(es: seq<Event>): nat {
    if es == [] then 0 else Max(Most(es[..|es| - 1]), |Run(es).index|)
  }

  /** peak is exactly that. */
  lemma {:induction false} PeakIsTheMost(es: seq<Event>)
    ensures |Run(es).index| <= Run(es).peak == Most(es)
  {
    if es != [] {
      PeakIsTheMost(es[..|es| - 1]);
      AddGrowsByOne(Run(es[..|es| - 1]), es[|es| - 1]);
    }
  }

  lemma AddGrowsByOne(t: Table, e: Event)
    requires |t.index| <= t.peak
    ensures var n := Step(t, e);
            t.peak <= n.peak && |n.index| <= n.peak && (n.peak != t.peak ==> |n.index| == n.peak)
  {
    match e
    case Add(u) =>
      if u !in t.index { assert t.index[u := FirstFree(t.slots)].Keys == t.index.Keys + {u}; }
    case Remove(u) =>
      if u in t.index { assert (t.index - {u}).Keys == t.index.Keys - {u}; }
  }

  // ------------------------------------------------------------------ the weight buffers

  const REVERB_CHANNELS := 4

  function ChannelCount(order: nat): nat { (order + 1) * (order + 1) }

  /** The slice buffer[slot * channels : slot * channels + width] of a buffer of maxNodes * channels floats. */
  predicate InRange(slot: nat, channels: nat, width: nat, maxNodes: nat) {
    slot * channels + width <= maxNodes * channels
  }

  /** While there were never more than maxNodes nodes at once, every live node's weight slice is in range. */
  lemma WeightSlicesAreInRange(es: seq<Event>, u: Uuid, order: nat, maxNodes: nat)
    requires (forall i :: 0 <= i < |es| ==> es[i] != Add(NIL)) && u in Run(es).index && Most(es) <= maxNodes
    ensures InRange(Run(es).index[u], ChannelCount(order), ChannelCount(order), maxNodes)
  {
    RunsKeepTheTable(es);
    RoomForSlot(Run(es).index[u], ChannelCount(order), ChannelCount(order), maxNodes);
  }

  lemma RoomForSlot(slot: nat, channels: nat, width: nat, maxNodes: nat)
    requires slot < maxNodes && width <= channels
    ensures InRange(slot, channels, width, maxNodes)
  {
    var spare := maxNodes - slot - 1;
    assert maxNodes * channels == slot * channels + channels + spare * channels;
    assert spare * channels >= 0;
  }

  /** The reverb slices of all slots are in range exactly from first order on. */
  lemma ReverbSlicesAreInRange(order: nat, maxNodes: nat)
    requires maxNodes > 0
    ensures (forall slot :: 0 <= slot < maxNodes ==> InRange(slot, ChannelCount(order), REVERB_CHANNELS, maxNodes))
            <==> order >= 1
  {
    if order >= 1 {
      assert ChannelCount(order) >= 2 * 2;
      forall slot | 0 <= slot < maxNodes
        ensures InRange(slot, ChannelCount(order), REVERB_CHANNELS, maxNodes)
      {
        RoomForSlot(slot, ChannelCount(order), REVERB_CHANNELS, maxNodes);
      }
    } else {
      assert ChannelCount(0) == 1;
      assert !InRange(maxNodes - 1, ChannelCount(order), REVERB_CHANNELS, maxNodes);
    }
  }
}
