/** The convergence sweep: dead sessions and orphaned state, one pass at a time. */
module Reconciler {
  import opened Common
  import opened Scope
  import Store = StoreModel

  // ------------------------------------------------------------------ one uuid, as a pass sees it

  /**
   * A registered entry: when it was admitted, whether its transport reports alive, and whether it is Live or departing.
   */
  datatype Info = Info(admittedAt: int, alive: bool, live: bool)

  /**
   * bouncer and tracked are None when the maps have no entry for the uuid, and otherwise say whether the sent keys,
   * or the tracked keys, contain the existence marker. owed: a tombstone of the marker is waiting in the queue.
   */
  datatype View = View(entry: Option<Info>, handler: bool, bouncer: Option<bool>, tracked: Option<bool>,
                       marker: bool, owed: bool, seen: Option<int>)

  predicate Derived(v: View) { v.handler || v.bouncer.Some? || v.tracked.Some? || v.marker }

  /** The goal: whatever is derived belongs to a registered session that is Live and whose transport is alive. */
  predicate Settled(v: View) { Derived(v) ==> v.entry.Some? && v.entry.value.alive && v.entry.value.live }

  /** The departure of the uuid's entry. */
  function Departs(v: View): View {
    v.(entry := None, handler := false, bouncer := None, tracked := None,
       owed := v.owed || v.tracked == Some(true) || v.bouncer == Some(true))
  }

  predicate IsDead(x: Info, now: int, minAge: int) { x.live && now - x.admittedAt >= minAge && !x.alive }

  /** Live, dead and old enough: departed. An entry already departing is left to the one that departs it. */
  function DeadStep(v: View, now: int, minAge: int): View {
    if v.entry.Some? && IsDead(v.entry.value, now, minAge) then Departs(v) else v
  }

  /** Derived without an entry: first seen, then left to age, then departed under a synthetic entry. */
  function OrphanStep(v: View, now: int, minAge: int): View {
    if !Derived(v) || v.entry.Some? then v.(seen := None)
    else if v.seen.None? then v.(seen := Some(now))
    else if now - v.seen.value < minAge then v
    else Departs(v).(seen := None)
  }

  function Pass(v: View, now: int, minAge: int): View { OrphanStep(DeadStep(v, now, minAge), now, minAge) }

  /** The dispatcher has worked off the tombstones. */
  function Drained(v: View): View {
    v.(marker := v.marker && !v.owed, tracked := if v.tracked == Some(true) && v.owed then Some(false) else v.tracked,
       owed := false)
  }

  function Swept(v: View, now: int, minAge: int): View { Drained(Pass(v, now, minAge)) }

  /** The sweeps at the given times, each followed by a drain. */
  function SweptAll(v: View, times: seq<int>, minAge: int): View
    decreases |times|
  {
    if times == [] then v else SweptAll(Swept(v, times[0], minAge), times[1..], minAge)
  }

  // ------------------------------------------------------------------ convergence

  /** A standing marker that no departure of this uuid would tombstone, and no living session behind it. */
  predicate Stranded(v: View) {
    && v.marker && !v.owed && v.tracked != Some(true) && v.bouncer != Some(true)
    && (v.entry.None? || (v.entry.value.live && !v.entry.value.alive))
  }

  /** Derived state under an entry whose departure is under way: no pass touches it. */
  predicate Underway(v: View) { Derived(v) && v.entry.Some? && !v.entry.value.live }

  /** Every registered session is old enough to be judged, and no sighting lies in the future. */
  predicate Aged(v: View, now: int, minAge: int) {
    && (v.entry.Some? ==> now - v.entry.value.admittedAt >= minAge)
    && (v.seen.Some? ==> v.seen.value <= now)
  }

  /** Two aged sweeps settle a uuid, exactly when its marker is not stranded and no departure of it hangs. */
  lemma TwoSweepsSettle(v: View, first: int, second: int, minAge: int)
    requires minAge >= 0 && Aged(v, first, minAge) && second - first >= minAge && !v.owed
    ensures Settled(SweptAll(v, [first, second], minAge)) <==> !Stranded(v) && !Underway(v)
  {
    SweptTwice(v, first, second, minAge);
    var once := Swept(v, first, minAge);
    hide SweptAll;
    if Stranded(v) || Underway(v) {
      assert once.marker == v.marker && !Settled(once);
    }
  }

  lemma SweptTwice(v: View, first: int, second: int, minAge: int)
    ensures SweptAll(v, [first, second], minAge) == Swept(Swept(v, first, minAge), second, minAge)
  {
    assert [first, second][1..] == [second] && [second][1..] == [];
    var once := Swept(v, first, minAge);
    hide Swept;
    assert SweptAll(v, [first, second], minAge) == SweptAll(once, [second], minAge) == Swept(once, second, minAge);
  }

  /** A settled uuid stays settled and its session keeps entry, handler, bouncer and marker, sweep after sweep. */
  lemma {:induction false} SettledStays(v: View, times: seq<int>, minAge: int)
    requires Settled(v) && !v.owed
    ensures Settled(SweptAll(v, times, minAge))
    ensures v.entry.Some? && v.entry.value.alive ==> SweptAll(v, times, minAge).(seen := None) == v.(seen := None)
    decreases |times|
  {
    if times != [] { SettledStays(Swept(v, times[0], minAge), times[1..], minAge); }
  }

  /** A stranded marker outlives every sweep. */
  lemma {:induction false} StrandedForever(v: View, times: seq<int>, minAge: int)
    requires Stranded(v)
    ensures !Settled(SweptAll(v, times, minAge))
    decreases |times|
  {
    if times != [] { StrandedForever(Swept(v, times[0], minAge), times[1..], minAge); }
  }

  /** Nothing younger than the minimum age is departed: neither a session nor an orphan. */
  lemma YoungIsLeftAlone(v: View, now: int, minAge: int)
    requires v.entry.Some? ==> now - v.entry.value.admittedAt < minAge
    requires v.seen.Some? ==> now - v.seen.value < minAge
    ensures Pass(v, now, minAge).(seen := None) == v.(seen := None)
  {
  }

  /**
   * When a pass departs a uuid: its entry is Live, dead and old enough, or it has no entry,
       is derived and was sighted long
   * enough ago. Then entry, handler,
       bouncer and tracked keys go and the marker they know of is owed a tombstone; otherwise
   * nothing but the sighting changes.
   */
  lemma PassDepartsExactly(v: View, now: int, minAge: int)
    ensures var t := Pass(v, now, minAge);
            var dead := match v.entry
                        case Some(x) => x.live && !x.alive && x.admittedAt + minAge <= now
                        case None => false;
            var orphaned := v.entry.None? && (v.handler || v.bouncer.Some? || v.tracked.Some? || v.marker)
                            && v.seen.Some? && v.seen.value + minAge <= now;
            && (dead || orphaned ==>
                  && t.entry.None? && !t.handler && t.bouncer.None? && t.tracked.None? && t.marker == v.marker
                  && (t.owed <==> v.owed || v.bouncer == Some(true) || v.tracked == Some(true)))
            && (!dead && !orphaned ==> t.(seen := None) == v.(seen := None))
  {
  }

  /**
   * What a pass remembers: a first sighting of what is derived without an entry, until it is swept. An entry, before or
   * after, and nothing derived, both forget it.
   */
  lemma PassSightsExactly(v: View, now: int, minAge: int)
    ensures var dead := match v.entry
                        case Some(x) => x.live && !x.alive && x.admittedAt + minAge <= now
                        case None => false;
            var orphan := if dead then v.marker
                          else v.entry.None? && (v.handler || v.bouncer.Some? || v.tracked.Some? || v.marker);
            var t := Pass(v, now, minAge);
            && (t.seen.Some? <==> orphan && (v.seen.Some? ==> now < v.seen.value + minAge))
            && (t.seen.Some? ==> t.seen.value == if v.seen.Some? then v.seen.value else now)
  {
  }

  // ------------------------------------------------------------------ the pass itself

  function Marker(c: Codec, u: Uuid): Slot { Slot("entity", c.show(u)) }

  /** What the store, deduplicated, holds for u's existence marker. */
  function CachedMarker(c: Codec, ops: seq<Store.Op>, u: Uuid): Option<Store.Op> {
    var m, key := Store.Merge(map[], ops), Store.CompositeKey("entity", c.show(u));
    if key in m then Some(m[key]) else None
  }

  /** No other topic's keys collide with the entity topic's, and a marker is cached in the text its uuid prints as. */
  predicate CleanOp(c: Codec, op: Store.Op) {
    !("entity:" <= op.topic) && (op.topic == "entity" ==> PrintedText(c, op.key))
  }

  /** An op is u's marker exactly when its composite key says so. */
  lemma MarkerKey(c: Codec, op: Store.Op, u: Uuid)
    requires Canonical(c) && CleanOp(c, op)
    ensures Store.KeyOf(op) == Store.CompositeKey("entity", c.show(u))
            <==> op.topic == "entity" && c.parse(op.key) == Some(u)
  {
    assert c.parse(c.show(u)) == Some(u);
    if op.topic == "entity" {
      Store.SameTopicSameKey("entity", op.key, c.show(u));
    } else if |op.topic| >= 6 {
      Store.TopicsCollideExactly("entity", op.topic);
    } else {
      Store.TopicsCollideExactly(op.topic, "entity");
      assert "entity"[|op.topic|] != (op.topic + ":")[|op.topic|];
    }
    hide Store.CompositeKey;
  }

  /** The snapshot pass of derivedUuids: per uuid the marker op with the highest id decides. */
  method StandingMarkers(c: Codec, ops: seq<Store.Op>) returns (out: set<Uuid>)
    requires Canonical(c) && forall i :: 0 <= i < |ops| ==> CleanOp(c, ops[i])
    ensures forall u: Uuid :: u in out <==> CachedMarker(c, ops, u).Some? && !CachedMarker(c, ops, u).value.tombstone
  {
    var latest: map<Uuid, Store.Op> := map[];
    for i := 0 to |ops|
      invariant forall u: Uuid :: CachedMarker(c, ops[..i], u) == if u in latest then Some(latest[u]) else None
    {
      assert ops[..i + 1][..i] == ops[..i];
      var op := ops[i];
      forall u: Uuid
        ensures CachedMarker(c, ops[..i + 1], u) ==
                if op.topic == "entity" && c.parse(op.key) == Some(u)
                    && (u !in latest || op.opId > latest[u].opId) then Some(op)
                else CachedMarker(c, ops[..i], u)
      {
        MarkerKey(c, op, u);
        hide Store.KeyOf, Store.CompositeKey;
        assert CachedMarker(c, ops[..i], u) == if u in latest then Some(latest[u]) else None;
      }
      if op.topic == "entity" && c.parse(op.key).Some? {
        var id := c.parse(op.key).value;
        if id !in latest || op.opId > latest[id].opId { latest := latest[id := op]; }
      }
    }
    assert ops[..|ops|] == ops;
    out := set u | u in latest && !latest[u].tombstone;
  }

  class Sweeper {
    var entries: map<Uuid, Info>                 // the registry
    var handlers: set<Uuid>
    var bouncers: map<Uuid, set<Slot>>           // each with the keys its client has sent
    var conn: map<Uuid, set<Slot>>
    var standing: set<Slot>                      // cached slots whose latest op is not a tombstone
    var queue: set<Slot>                         // tombstones waiting for the dispatcher
    var firstSeen: map<Uuid, int>

    /** A uuid's own records hold no other uuid's marker. */
    ghost predicate Valid(c: Codec)
      reads this
    {
      && Canonical(c) && (forall k :: k in standing && k.topic == "entity" ==> PrintedText(c, k.key))
      && (forall u, x: Uuid :: u in conn && Marker(c, x) in conn[u] ==> x == u)
      && (forall u, x: Uuid :: u in bouncers && Marker(c, x) in bouncers[u] ==> x == u)
    }

    constructor (c: Codec)
      requires Canonical(c)
      ensures Valid(c)
    {
      entries, handlers, bouncers, conn, standing, queue, firstSeen := map[], {}, map[], map[], {}, {}, map[];
    }

    function ViewOf(c: Codec, u: Uuid): View
      reads this
    {
      View(if u in entries then Some(entries[u]) else None,
           u in handlers,
           if u in bouncers then Some(Marker(c, u) in bouncers[u]) else None,
           if u in conn then Some(Marker(c, u) in conn[u]) else None,
           Marker(c, u) in standing,
           Marker(c, u) in queue,
           if u in firstSeen then Some(firstSeen[u]) else None)
    }

    /** As DepartNode leaves it: the tracked and the sent keys go to the queue, the rest of the uuid goes away. */
    method DepartNode(c: Codec, u: Uuid)
      requires Valid(c)
      modifies this`entries, this`handlers, this`bouncers, this`conn, this`queue
      ensures Valid(c)
      ensures forall x: Uuid :: ViewOf(c, x) == if x == u then Departs(old(ViewOf(c, x))) else old(ViewOf(c, x))
      ensures entries == old(entries) - {u}
    {
      queue := queue + (if u in conn then conn[u] else {}) + (if u in bouncers then bouncers[u] else {});
      handlers := handlers - {u};
      bouncers := bouncers - {u};
      conn := conn - {u};
      entries := entries - {u};
    }

    /** Every uuid in the handler, bouncer or tracked-key maps, or with a standing existence marker. */
    method DerivedUuids(c: Codec) returns (out: set<Uuid>)
      requires Valid(c)
      ensures forall u: Uuid :: u in out <==> Derived(ViewOf(c, u))
    {
      out := handlers + bouncers.Keys + conn.Keys;
      var rest := standing;
      while rest != {}
        invariant rest <= standing
        invariant forall u: Uuid ::
                    u in out <==> u in handlers || u in bouncers || u in conn || Marker(c, u) in standing - rest
      {
        var k :| k in rest;
        rest := rest - {k};
        if k.topic == "entity" && c.parse(k.key).Some? {
          assert k == Marker(c, c.parse(k.key).value);
          out := out + {c.parse(k.key).value};
        }
      }
    }

    method DepartDead(c: Codec, now: int, minAge: int)
      requires Valid(c)
      modifies this`entries, this`handlers, this`bouncers, this`conn, this`queue
      ensures Valid(c)
      ensures forall u: Uuid :: ViewOf(c, u) == DeadStep(old(ViewOf(c, u)), now, minAge)
    {
      var rest := entries.Keys;
      while rest != {}
        invariant Valid(c) && rest <= entries.Keys
        invariant forall u: Uuid :: ViewOf(c, u) == if u in rest then old(ViewOf(c, u))
                  else DeadStep(old(ViewOf(c, u)), now, minAge)
      {
        var u :| u in rest;
        rest := rest - {u};
        if entries[u].live && now - entries[u].admittedAt >= minAge && !entries[u].alive { DepartNode(c, u); }
      }
    }

    method SweepOrphans(c: Codec, derived: set<Uuid>, now: int, minAge: int)
      requires Valid(c) && forall u: Uuid :: u in derived <==> Derived(ViewOf(c, u))
      modifies this
      ensures Valid(c)
      ensures forall u: Uuid :: ViewOf(c, u) == if u in derived then OrphanStep(old(ViewOf(c, u)), now, minAge)
              else old(ViewOf(c, u))
    {
      var rest := derived;
      while rest != {}
        invariant Valid(c) && rest <= derived
        invariant forall u: Uuid :: ViewOf(c, u) ==
                    if u in derived && u !in rest then OrphanStep(old(ViewOf(c, u)), now, minAge) else old(ViewOf(c, u))
      {
        var u :| u in rest;
        rest := rest - {u};
        JudgeOrphan(c, u, now, minAge);
      }
    }

    /** One derived uuid: forget, note, wait, or depart under a synthetic entry. */
    method JudgeOrphan(c: Codec, u: Uuid, now: int, minAge: int)
      requires Valid(c) && Derived(ViewOf(c, u))
      modifies this
      ensures Valid(c)
      ensures forall x: Uuid :: ViewOf(c, x) == if x == u then OrphanStep(old(ViewOf(c, x)), now, minAge)
              else old(ViewOf(c, x))
    {
      if u in entries {
        firstSeen := firstSeen - {u};
      } else if u !in firstSeen {
        firstSeen := firstSeen[u := now];
      } else if now - firstSeen[u] >= minAge {
        firstSeen := firstSeen - {u};
        entries := entries[u := Info(now, true, true)];
        DepartNode(c, u);
      }
    }

    /** One sweep: dead sessions, then orphans, then forget the sightings of what is no longer derived. */
    method ReconcilePass(c: Codec, now: int, minAge: int)
      requires Valid(c)
      modifies this
      ensures Valid(c)
      ensures forall u: Uuid :: ViewOf(c, u) == Pass(old(ViewOf(c, u)), now, minAge)
    {
      DepartDead(c, now, minAge);
      var derived := DerivedUuids(c);
      label swept:
      SweepOrphans(c, derived, now, minAge);
      label judged:
      firstSeen := map u | u in firstSeen && u in derived :: firstSeen[u];
      forall u: Uuid
        ensures ViewOf(c, u) == OrphanStep(old@swept(ViewOf(c, u)), now, minAge)
      {
        assert ViewOf(c, u) == if u in derived then old@judged(ViewOf(c, u))
               else old@judged(ViewOf(c, u)).(seen := None);
      }
    }

    /** The dispatcher works the tombstones off: uncached and untracked, one by one. */
    method Drain(c: Codec)
      requires Valid(c)
      modifies this`standing, this`conn, this`queue
      ensures Valid(c)
      ensures forall u: Uuid :: ViewOf(c, u) == Drained(old(ViewOf(c, u)))
    {
      standing := standing - queue;
      conn := map u | u in conn :: conn[u] - queue;
      queue := {};
    }
  }
}
