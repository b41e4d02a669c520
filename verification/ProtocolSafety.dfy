/**
 * What the departure protocol promises of every run: the order of the queue, the last word on every announced key,
 * the survival of policy, and what is left when everything has come to rest.
 */
module ProtocolSafety {
  import opened Common
  import opened Scope
  import opened Protocol
  import opened ProtocolOrder

  // ------------------------------------------------------------------ runs

  ghost predicate Run(c: Codec, states: seq<State>, steps: seq<Step>) {
    && |states| == |steps| + 1 && states[0] == Init()
    && forall i :: 0 <= i < |steps| ==> Enabled(c, states[i], steps[i]) && states[i + 1] == Next(c, states[i], steps[i])
  }

  ghost predicate Reachable(c: Codec, s: State) {
    exists states, steps :: Run(c, states, steps) && states[|steps|] == s
  }

  lemma {:induction false} RunKeepsInv(c: Codec, states: seq<State>, steps: seq<Step>, i: nat)
    requires Run(c, states, steps) && i <= |steps|
    ensures Inv(c, states[i])
  {
    if i == 0 {
      InitInv(c);
    } else {
      RunKeepsInv(c, states, steps, i - 1);
      hide Inv, Next, Enabled;
      NextKeepsInv(c, states[i - 1], steps[i - 1]);
    }
  }

  lemma ReachableInv(c: Codec, s: State)
    requires Reachable(c, s)
    ensures Inv(c, s)
  {
    var states, steps :| Run(c, states, steps) && states[|steps|] == s;
    RunKeepsInv(c, states, steps, |steps|);
  }

  lemma InitReachable(c: Codec)
    ensures Reachable(c, Init())
  {
    assert Run(c, [Init()], []);
  }

  lemma StepReaches(c: Codec, s: State, e: Step)
    requires Reachable(c, s) && Enabled(c, s, e)
    ensures Reachable(c, Next(c, s, e))
  {
    hide Enabled, Next;
    var states, steps :| Run(c, states, steps) && states[|steps|] == s;
    var longer, more := states + [Next(c, s, e)], steps + [e];
    forall i | 0 <= i < |more|
      ensures Enabled(c, longer[i], more[i]) && longer[i + 1] == Next(c, longer[i], more[i])
    {
      if i < |steps| { assert longer[i] == states[i] && longer[i + 1] == states[i + 1] && more[i] == steps[i]; }
    }
    assert Run(c, longer, more) && longer[|more|] == Next(c, s, e);
  }

  // ------------------------------------------------------------------ ownership, in every reachable state

  /** At most one entry per uuid is live, and a live session with a client owns all three maps. */
  lemma LiveSessionsOwnTheirUuid(c: Codec, s: State, g: Gen)
    requires Reachable(c, s) && InPhase(s, g, LIVE)
    ensures forall h :: InPhase(s, h, LIVE) && s.sess[h].uuid == s.sess[g].uuid ==> h == g
    ensures Lookup(s.registry, s.sess[g].uuid) == Some(g)
    ensures !s.sess[g].orphan ==> Lookup(s.handlers, s.sess[g].uuid) == Lookup(s.bouncers, s.sess[g].uuid) == Some(g)
  {
    ReachableInv(c, s);
    hide LogOk, AllKeysOk, ConnOk, AllSweepsOk, SessionsOk;
    forall h | InPhase(s, h, LIVE) && s.sess[h].uuid == s.sess[g].uuid ensures h == g { AtMostOneLive(s, g, h); }
    if !s.sess[g].orphan { LiveSessionOwnsItsMaps(s, g); }
  }

  /**
   * Whatever step comes next, a live session keeps its entry, handler and bouncer unless the step begins its own
   * departure.
   */
  lemma OnlyItsOwnDepartureTakesTheMaps(c: Codec, s: State, e: Step, g: Gen)
    requires Reachable(c, s) && Enabled(c, s, e) && InPhase(s, g, LIVE) && !s.sess[g].orphan && !Severs(s, e, g)
    ensures var t, u := Next(c, s, e), s.sess[g].uuid;
            Lookup(t.registry, u) == Lookup(t.handlers, u) == Lookup(t.bouncers, u) == Some(g)
  {
    ReachableInv(c, s);
    OnlyItsOwnDepartureEndsASession(c, s, e, g);
    StepEvolves(c, s, e);
    assert Evolves(s.sess[g], Next(c, s, e).sess[g]);
    StepReaches(c, s, e);
    hide Inv, Next, Enabled, Reachable;
    LiveSessionsOwnTheirUuid(c, Next(c, s, e), g);
  }

  // ------------------------------------------------------------------ the order of the queue

  /** In terms of the topics: attributes comes first if at all, and nothing but attributes comes before entity. */
  lemma SweepOrderMeans(a: string, b: string)
    requires GoesBefore(a, b)
    ensures a != b && b != "attributes" && (b == "entity" ==> a == "attributes")
  {
  }

  /**
   * Of two messages of one uuid the earlier generation stands first, a session's own messages stand before its
   * tombstones, and of its tombstones attributes come first, then entity, then the rest, each topic once.
   */
  lemma QueueOrder(c: Codec, s: State, i: nat, j: nat)
    requires Reachable(c, s) && i < j < |s.log|
    requires GenOf(s.log[i]).Some? && GenOf(s.log[j]).Some?
    ensures var g, h := GenOf(s.log[i]).value, GenOf(s.log[j]).value;
            g in s.sess && h in s.sess
            && (s.sess[g].uuid == s.sess[h].uuid ==>
                  && g <= h
                  && (g == h && s.log[i].origin.FromDeparture? ==>
                        && s.log[j].origin.FromDeparture? && s.log[i].topic != s.log[j].topic
                        && s.log[j].topic != "attributes"
                        && (s.log[j].topic == "entity" ==> s.log[i].topic == "attributes")))
  {
    ReachableInv(c, s);
    hide AllKeysOk, ConnOk, AllSweepsOk, Ownership, GoesBefore, SlotsIn, AllOwned, AreTombstones, NoMarkers, Announced;
    assert MsgOk(c, s.sess, s.log[i]) && MsgOk(c, s.sess, s.log[j]) && MayPrecede(s.sess, s.log[i], s.log[j]);
    if GoesBefore(s.log[i].topic, s.log[j].topic) { SweepOrderMeans(s.log[i].topic, s.log[j].topic); }
  }

  // ------------------------------------------------------------------ the cache

  /** What the store holds for a key: who wrote it last, and whether that was a tombstone. */
  datatype Written = Written(origin: Origin, tombstone: bool)

  predicate Writes(c: Codec, m: Msg, k: Slot) {
    m.topic == k.topic && k.key in KeysOf(m.ops) && Permitted(c, m.source, k.topic, k.key)
  }

  /** The permitted ops of one message, stored one after the other. */
  function Store(c: Codec, cache: map<Slot, Written>, m: Msg, ops: seq<ParsedOp>): map<Slot, Written> {
    if ops == [] then cache
    else
      var before := Store(c, cache, m, ops[..|ops| - 1]);
      var op := ops[|ops| - 1];
      if Permitted(c, m.source, m.topic, op.key) then before[Slot(m.topic, op.key) := Written(m.origin, op.tombstone)]
      else before
  }

  function CacheOf(c: Codec, log: seq<Msg>): map<Slot, Written> {
    if log == [] then map[]
    else var m := log[|log| - 1]; Store(c, CacheOf(c, log[..|log| - 1]), m, m.ops)
  }

  lemma {:induction false} StoreAt(c: Codec, cache: map<Slot, Written>, m: Msg, ops: seq<ParsedOp>, k: Slot)
    ensures var after := Store(c, cache, m, ops);
            if m.topic == k.topic && k.key in KeysOf(ops) && Permitted(c, m.source, k.topic, k.key) then
              && LastIndex(ops, k.key).Some?
              && k in after && after[k] == Written(m.origin, ops[LastIndex(ops, k.key).value].tombstone)
            else (k in after <==> k in cache) && (k in cache ==> after[k] == cache[k])
  {
    hide Permitted;
    if ops != [] {
      StoreAt(c, cache, m, ops[..|ops| - 1], k);
      KeysOfLast(ops);
      hide KeysOf;
    }
  }

  /** The index of the last message that writes k. */
  function LastWriter(c: Codec, log: seq<Msg>, k: Slot): (r: Option<nat>)
    ensures r.Some? ==> r.value < |log| && Writes(c, log[r.value], k)
    ensures forall j :: 0 <= j < |log| && Writes(c, log[j], k) ==> r.Some? && j <= r.value
  {
    if log == [] then None
    else if Writes(c, log[|log| - 1], k) then Some(|log| - 1)
    else LastWriter(c, log[..|log| - 1], k)
  }

  /** The cache is last-write-wins. */
  lemma {:induction false} CacheNamesTheLastWriter(c: Codec, log: seq<Msg>, k: Slot)
    ensures k in CacheOf(c, log) <==> LastWriter(c, log, k).Some?
    ensures k in CacheOf(c, log) ==>
              var m := log[LastWriter(c, log, k).value];
              && LastIndex(m.ops, k.key).Some?
              && CacheOf(c, log)[k] == Written(m.origin, m.ops[LastIndex(m.ops, k.key).value].tombstone)
  {
    hide Permitted, KeysOf;
    if log != [] {
      var m := log[|log| - 1];
      CacheNamesTheLastWriter(c, log[..|log| - 1], k);
      StoreAt(c, CacheOf(c, log[..|log| - 1]), m, m.ops, k);
    }
  }

  // ------------------------------------------------------------------ the last word on an announced key

  /** The origin is a later session of g's uuid, or that session's departure. */
  predicate Succeeds(sess: Sessions, o: Origin, g: Gen) {
    && g in sess && !o.FromSystem?
    && var h := o.gen; h in sess && sess[h].uuid == sess[g].uuid && g < h
  }

  /** A connection-scoped key can only be written by its subject's sessions and their departures. */
  lemma OnlyTheSubjectWrites(c: Codec, s: State, m: Msg, u: Uuid, k: Slot)
    requires MsgOk(c, s.sess, m) && Writes(c, m, k) && Owns(c, u, k.topic, k.key) && u != NIL
             && Typed(s.sess, s.nextGen, s.registry)
    ensures GenOf(m).Some? && GenOf(m).value in s.sess && s.sess[GenOf(m).value].uuid == u
  {
    InSlots(m, k);
    SystemKeysArePolicy(c, s.sess, m, k);
    hide SlotsIn, KeysOf;
  }

  lemma InSlots(m: Msg, k: Slot)
    ensures k in SlotsIn(m) <==> m.topic == k.topic && k.key in KeysOf(m.ops)
  {
  }

  lemma SystemKeysArePolicy(c: Codec, sess: Sessions, m: Msg, k: Slot)
    requires MsgOk(c, sess, m)
    ensures m.origin.FromSystem? && k.key in KeysOf(m.ops) ==> ClassifyKey(c, m.topic, k.key).0 == Policy
  {
  }

  lemma AnnouncedIsSwept(c: Codec, s: State, g: Gen, i: nat, k: Slot)
    requires Inv(c, s) && g in s.sess && s.sess[g].phase >= REMOVED
    requires i < |s.log| && s.log[i].origin == FromSession(g, true) && k in SlotsIn(s.log[i])
    ensures Swept(s.log, g, k) && Owns(c, s.sess[g].uuid, k.topic, k.key)
  {
    assert MsgOk(c, s.sess, s.log[i]);
    assert KeysOk(c, s.sess[g]);
    SweepOf(s, g);
    SessionFacts(s, g);
    hide SlotsIn, LogOk, AllKeysOk, AllSweepsOk, Swept, GoesBefore;
  }

  /** From g's tombstone of its own key on, only g's departure and later sessions write that key. */
  lemma AfterTheTombstone(c: Codec, s: State, g: Gen, t: nat, j: nat, k: Slot)
    requires Reachable(c, s) && g in s.sess && t <= j < |s.log| && Sweeps(s.log[t], g, k) && Writes(c, s.log[j], k)
    requires Owns(c, s.sess[g].uuid, k.topic, k.key)
    ensures Succeeds(s.sess, s.log[j].origin, g)
            || (s.log[j].origin == FromDeparture(g) && AreTombstones(s.log[j].ops, KeysOf(s.log[j].ops)))
  {
    ReachableInv(c, s);
    assert s.sess[g].uuid != NIL by { assert Typed(s.sess, s.nextGen, s.registry); }
    assert MsgOk(c, s.sess, s.log[j]);
    OnlyTheSubjectWrites(c, s, s.log[j], s.sess[g].uuid, k);
    if t < j { QueueOrder(c, s, t, j); }
    hide SlotsIn, KeysOf, Reachable, Inv, AllOwned, GoesBefore, Writes, Permitted, Owns, AreTombstones, Announced;
  }

  lemma SweepWrites(c: Codec, s: State, g: Gen, t: nat, k: Slot)
    requires LogOk(c, s.sess, s.log) && t < |s.log| && Sweeps(s.log[t], g, k)
    ensures Writes(c, s.log[t], k)
  {
    assert MsgOk(c, s.sess, s.log[t]);
  }

  /**
   * Once the departure of g has enqueued its node removal, the last write in the queue of every key that g published
   * through sendEntity or sendAttributes is g's tombstone, or it is a later session's of the same uuid. When the
   * dispatcher has drained the queue, that is what the cache holds.
   */
  lemma LastWord(c: Codec, s: State, g: Gen, i: nat, k: Slot)
    requires Reachable(c, s) && g in s.sess && s.sess[g].phase >= REMOVED
    requires i < |s.log| && s.log[i].origin == FromSession(g, true) && k in SlotsIn(s.log[i])
    ensures k in CacheOf(c, s.log)
    ensures var w := CacheOf(c, s.log)[k]; w == Written(FromDeparture(g), true) || Succeeds(s.sess, w.origin, g)
  {
    ReachableInv(c, s);
    AnnouncedIsSwept(c, s, g, i, k);
    hide Reachable, CacheOf, Sweeps, Writes, Owns, Succeeds, Ownership, LogOk, AllKeysOk, ConnOk, AllSweepsOk;
    var t :| 0 <= t < |s.log| && Sweeps(s.log[t], g, k);
    SweepWrites(c, s, g, t, k);
    hide LastWriter, AreTombstones, KeysOf;
    CacheNamesTheLastWriter(c, s.log, k);
    AfterTheTombstone(c, s, g, t, LastWriter(c, s.log, k).value, k);
  }

  // ------------------------------------------------------------------ policy survives

  function WithoutDepartures(log: seq<Msg>): seq<Msg> {
    if log == [] then []
    else
      var before := WithoutDepartures(log[..|log| - 1]);
      if log[|log| - 1].origin.FromDeparture? then before else before + [log[|log| - 1]]
  }

  lemma {:induction false} DroppingIdleMessages(c: Codec, log: seq<Msg>, k: Slot)
    requires forall i :: 0 <= i < |log| && log[i].origin.FromDeparture? ==> !Writes(c, log[i], k)
    ensures var a, b := CacheOf(c, log), CacheOf(c, WithoutDepartures(log));
            (k in a <==> k in b) && (k in a ==> a[k] == b[k])
  {
    hide Permitted;
    if log != [] {
      var front, m := log[..|log| - 1], log[|log| - 1];
      DroppingIdleMessages(c, front, k);
      StoreAt(c, CacheOf(c, front), m, m.ops, k);
      if !m.origin.FromDeparture? {
        var kept := WithoutDepartures(front);
        assert (kept + [m])[..|kept|] == kept;
        StoreSame(c, CacheOf(c, front), CacheOf(c, kept), m, m.ops, k);
      }
    }
  }

  lemma {:induction false} StoreSame(c: Codec, a: map<Slot, Written>, b: map<Slot, Written>, m: Msg, ops: seq<ParsedOp>,
                                     k: Slot)
    requires (k in a <==> k in b) && (k in a ==> a[k] == b[k])
    ensures var x, y := Store(c, a, m, ops), Store(c, b, m, ops); (k in x <==> k in y) && (k in x ==> x[k] == y[k])
  {
    hide Permitted;
    if ops != [] { StoreSame(c, a, b, m, ops[..|ops| - 1], k); }
  }

  /** In every run, the departures change nothing about any policy-scoped key, of the departing subject or any other. */
  lemma PolicySurvives(c: Codec, s: State, k: Slot)
    requires Reachable(c, s) && ClassifyKey(c, k.topic, k.key).0 == Policy
    ensures var a, b := CacheOf(c, s.log), CacheOf(c, WithoutDepartures(s.log));
            (k in a <==> k in b) && (k in a ==> a[k] == b[k])
  {
    ReachableInv(c, s);
    forall i | 0 <= i < |s.log| && s.log[i].origin.FromDeparture?
      ensures !Writes(c, s.log[i], k)
    {
      assert MsgOk(c, s.sess, s.log[i]);
      InSlots(s.log[i], k);
    }
    DroppingIdleMessages(c, s.log, k);
  }
}
