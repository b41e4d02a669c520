/**
 * DepartNode and admission as they run in one goroutine, on the backend's own objects. The interleavings are the
 * business of the transition system; BackendRefines shows that this routine is that system's departure.
 */
module Departure {
  import opened Common
  import opened Scope
  import opened Protocol
  import opened ProtocolSafety
  import S = Sessions

  method AddOp(ops: seq<ParsedOp>, key: string) returns (more: seq<ParsedOp>)
    ensures more == ops + [ParsedOp(key, false)] && KeysOf(more) == KeysOf(ops) + {key}
  {
    more := ops + [ParsedOp(key, false)];
    KeysOfLast(more);
    assert more[..|ops|] == ops;
  }

  /** The keys of the entity record, without their topic. */
  function EntityNames(c: Codec, u: Uuid, subspaces: seq<string>, roles: seq<string>): set<string> {
    {c.show(u)}
    + (set i | 0 <= i < |subspaces| :: NestedKey(c, u, "subspaces", subspaces[i]))
    + (set i | 0 <= i < |roles| && roles[i] != "" :: NestedKey(c, u, "roles", roles[i]))
  }

  lemma NamesAreKeys(c: Codec, u: Uuid, subspaces: seq<string>, roles: seq<string>)
    ensures SlotsOf(Batch("entity", EntityNames(c, u, subspaces, roles))) == EntityKeys(c, u, subspaces, roles)
  {
    hide NestedKey;
  }

  lemma SlotsUnion(topic: string, a: set<string>, b: set<string>)
    ensures SlotsOf(Batch(topic, a + b)) == SlotsOf(Batch(topic, a)) + SlotsOf(Batch(topic, b))
  {
  }

  lemma EntityNamesGrow(c: Codec, u: Uuid, subspaces: seq<string>, i: nat, roles: seq<string>, j: nat)
    requires i <= |subspaces| && j <= |roles|
    ensures i < |subspaces| ==>
              EntityNames(c, u, subspaces[..i + 1], [])
                  == EntityNames(c, u, subspaces[..i], []) + {NestedKey(c, u, "subspaces", subspaces[i])}
    ensures j < |roles| ==>
              EntityNames(c, u, subspaces, roles[..j + 1])
              == EntityNames(c, u, subspaces, roles[..j])
                 + (if roles[j] != "" then {NestedKey(c, u, "roles", roles[j])} else {})
  {
    hide NestedKey;
    if i < |subspaces| { assert subspaces[..i + 1] == subspaces[..i] + [subspaces[i]]; }
    if j < |roles| { assert roles[..j + 1] == roles[..j] + [roles[j]]; }
  }

  /** The ops of the entity record: marker, subspaces, named roles. */
  method EntityOps(c: Codec, u: Uuid, subspaces: seq<string>, roles: seq<string>) returns (ops: seq<ParsedOp>)
    ensures SlotsOf(Batch("entity", KeysOf(ops))) == EntityKeys(c, u, subspaces, roles)
    ensures forall i :: 0 <= i < |ops| ==> !ops[i].tombstone
  {
    ops := [ParsedOp(c.show(u), false)];
    assert KeysOf(ops) == {c.show(u)} by { assert ops[0].key in KeysOf(ops); }
    for i := 0 to |subspaces|
      invariant KeysOf(ops) == EntityNames(c, u, subspaces[..i], [])
      invariant forall j :: 0 <= j < |ops| ==> !ops[j].tombstone
    {
      ops := AddOp(ops, NestedKey(c, u, "subspaces", subspaces[i]));
      EntityNamesGrow(c, u, subspaces, i, [], 0);
    }
    assert subspaces[..|subspaces|] == subspaces && roles[..0] == [];
    for i := 0 to |roles|
      invariant KeysOf(ops) == EntityNames(c, u, subspaces, roles[..i])
      invariant forall j :: 0 <= j < |ops| ==> !ops[j].tombstone
    {
      if roles[i] != "" { ops := AddOp(ops, NestedKey(c, u, "roles", roles[i])); }
      EntityNamesGrow(c, u, subspaces, |subspaces|, roles, i);
    }
    assert roles[..|roles|] == roles;
    NamesAreKeys(c, u, subspaces, roles);
  }

  class BouncerClient {
    var done: bool
    var sentKeys: set<string>
    var sentEntityKeys: set<string>

    function Sent(): set<Slot>
      reads this
    {
      SlotsOf(Batch("attributes", sentKeys)) + SlotsOf(Batch("entity", sentEntityKeys))
    }

    constructor ()
      ensures !done && Sent() == {}
    {
      done, sentKeys, sentEntityKeys := false, {}, {};
    }

    /** Every key of the entity record is recorded before the message is handed out. */
    method SendEntity(c: Codec, u: Uuid, subspaces: seq<string>, roles: seq<string>) returns (ops: seq<ParsedOp>)
      modifies this`sentEntityKeys
      ensures SlotsOf(Batch("entity", KeysOf(ops))) == EntityKeys(c, u, subspaces, roles)
      ensures Sent() == old(Sent()) + EntityKeys(c, u, subspaces, roles)
      ensures forall i :: 0 <= i < |ops| ==> !ops[i].tombstone
    {
      ops := EntityOps(c, u, subspaces, roles);
      SlotsUnion("entity", sentEntityKeys, KeysOf(ops));
      sentEntityKeys := sentEntityKeys + KeysOf(ops);
      hide EntityKeys, SlotsOf, KeysOf;
    }

    /** The attributes: name, and ticket and connection where the configuration has them. */
    method SendAttributes(c: Codec, u: Uuid, ticket: bool, connection: bool) returns (ops: seq<ParsedOp>)
      modifies this`sentKeys
      ensures SlotsOf(Batch("attributes", KeysOf(ops))) == AttributeKeys(c, u, ticket, connection)
      ensures Sent() == old(Sent()) + AttributeKeys(c, u, ticket, connection)
      ensures forall i :: 0 <= i < |ops| ==> !ops[i].tombstone
    {
      ops := AddOp([], FieldKey(c, u, "name"));
      if ticket { ops := AddOp(ops, FieldKey(c, u, "ticket")); }
      if connection { ops := AddOp(ops, FieldKey(c, u, "connection")); }
      SlotsUnion("attributes", sentKeys, KeysOf(ops));
      sentKeys := sentKeys + KeysOf(ops);
    }

    method Quiesce()
      modifies this`done
      ensures done
    {
      done := true;
    }

    /** Hands the published keys over and forgets them. */
    method TakeSentKeys() returns (attributes: set<string>, entity: set<string>)
      modifies this`sentKeys, this`sentEntityKeys
      ensures SlotsOf(Batch("attributes", attributes)) + SlotsOf(Batch("entity", entity)) == old(Sent()) && Sent() == {}
    {
      attributes, entity := sentKeys, sentEntityKeys;
      sentKeys, sentEntityKeys := {}, {};
    }
  }

  class Bouncer {
    var quit: bool
    var stopped: bool
    var client: BouncerClient?

    constructor (client: BouncerClient)
      ensures !quit && !stopped && this.client == client
    {
      quit, stopped, this.client := false, false, client;
    }

    method Stop()
      modifies this
      ensures quit && stopped && client == null
    {
      quit := true;
      stopped := true;
      client := null;
    }
  }

  class ConnectionHandler {
    const entry: S.Entry?
    var isActive: bool

    constructor (entry: S.Entry?)
      ensures this.entry == entry && isActive
    {
      this.entry := entry;
      isActive := true;
    }
  }

  // ------------------------------------------------------------------ the order of the sweep

  function Slots(keysByTopic: map<string, set<string>>): set<Slot> {
    set t, k | t in keysByTopic && k in keysByTopic[t] :: Slot(t, k)
  }

  predicate InSweepOrder(order: seq<string>) {
    forall i, j :: 0 <= i < j < |order| ==> GoesBefore(order[i], order[j])
  }

  lemma AppendTopic(order: seq<string>, t: string)
    requires InSweepOrder(order) && t !in order && t != "attributes" && t != "entity"
    ensures InSweepOrder(order + [t]) && forall x :: x in order + [t] <==> x in order || x == t
  {
  }

  /** attributes, then entity, then the rest in any order; each topic once. */
  method SweepTopicOrder(topics: set<string>) returns (order: seq<string>)
    ensures InSweepOrder(order) && forall t :: t in order <==> t in topics
    ensures forall i, j :: 0 <= i < j < |order| ==>
              order[i] != order[j] && order[j] != "attributes" && (order[j] == "entity" ==> order[i] == "attributes")
  {
    order := [];
    if "attributes" in topics { order := order + ["attributes"]; }
    if "entity" in topics { order := order + ["entity"]; }
    var rest := topics - {"attributes", "entity"};
    while rest != {}
      invariant rest <= topics - {"attributes", "entity"}
      invariant InSweepOrder(order) && (forall t :: t in order <==> t in topics - rest)
    {
      var t :| t in rest;
      hide InSweepOrder;
      AppendTopic(order, t);
      rest := rest - {t};
      order := order + [t];
    }
    assert topics - rest == topics;
    OrderMeans(order);
  }

  lemma OrderMeans(order: seq<string>)
    requires InSweepOrder(order)
    ensures forall i, j :: 0 <= i < j < |order| ==>
              order[i] != order[j] && order[j] != "attributes" && (order[j] == "entity" ==> order[i] == "attributes")
  {
    forall i, j | 0 <= i < j < |order|
      ensures order[i] != order[j] && order[j] != "attributes" && (order[j] == "entity" ==> order[i] == "attributes")
    {
      SweepOrderMeans(order[i], order[j]);
    }
    hide GoesBefore;
  }

  /** The batches of a sweep: each topic once, attributes first, and nothing but attributes before entity. */
  lemma SweepIsInOrder(doomed: set<Slot>, pending: seq<Batch>, i: nat, j: nat)
    requires IsSweep(doomed, pending) && i < j < |pending|
    ensures pending[i].topic != pending[j].topic && pending[j].topic != "attributes"
    ensures pending[j].topic == "entity" ==> pending[i].topic == "attributes"
  {
    hide SlotsOf;
    SweepOrderMeans(pending[i].topic, pending[j].topic);
  }

  /** The tombstones of one topic, in whatever order the keys come out of the map. */
  method TombstoneBatch(keys: set<string>) returns (ops: seq<ParsedOp>)
    ensures AreTombstones(ops, keys) && (ops == [] <==> keys == {})
  {
    ops := [];
    var rest := keys;
    while rest != {}
      invariant rest <= keys && AreTombstones(ops, keys - rest)
    {
      var key :| key in rest;
      ghost var before := ops;
      ops := ops + [ParsedOp(key, true)];
      KeysOfLast(ops);
      assert ops[..|ops| - 1] == before;
      rest := rest - {key};
    }
    assert ops != [] ==> ops[0].key in KeysOf(ops);
  }

  /** One message per pending batch, as the departure of g sends it. */
  predicate AreBatches(g: Gen, pending: seq<Batch>, messages: seq<Msg>) {
    && |messages| == |pending|
    && forall i :: 0 <= i < |pending| ==>
         messages[i].origin == FromDeparture(g) && messages[i].source == NIL
         && messages[i].topic == pending[i].topic && AreTombstones(messages[i].ops, pending[i].keys)
  }

  lemma AppendBatch(doomed: set<Slot>, pending: seq<Batch>, b: Batch)
    requires IsSweep(doomed, pending)
    requires forall i :: 0 <= i < |pending| ==>
               GoesBefore(pending[i].topic, b.topic)
    ensures IsSweep(doomed + SlotsOf(b), pending + [b])
  {
    hide GoesBefore, SlotsOf;
    forall k
      ensures k in doomed + SlotsOf(b) <==> exists i :: 0 <= i < |pending + [b]| && k in SlotsOf((pending + [b])[i])
    {
      if k in doomed {
        var i :| 0 <= i < |pending| && k in SlotsOf(pending[i]);
        assert (pending + [b])[i] == pending[i];
      }
      if k in SlotsOf(b) { assert (pending + [b])[|pending|] == b; }
    }
  }

  function AddKey(keysByTopic: map<string, set<string>>, k: Slot): map<string, set<string>> {
    keysByTopic[k.topic := (if k.topic in keysByTopic then keysByTopic[k.topic] else {}) + {k.key}]
  }

  lemma AddKeySlots(keysByTopic: map<string, set<string>>, k: Slot)
    ensures Slots(AddKey(keysByTopic, k)) == Slots(keysByTopic) + {k}
  {
    assert k == Slot(k.topic, k.key);
  }

  method AddKeys(keysByTopic: map<string, set<string>>, slots: set<Slot>) returns (r: map<string, set<string>>)
    ensures Slots(r) == Slots(keysByTopic) + slots
  {
    r := keysByTopic;
    var rest := slots;
    while rest != {}
      invariant rest <= slots && Slots(r) == Slots(keysByTopic) + (slots - rest)
    {
      var k :| k in rest;
      AddKeySlots(r, k);
      r := AddKey(r, k);
      rest := rest - {k};
    }
  }

  datatype Refusal = Duplicate | ServerFull

  function KeptOps(c: Codec, source: Uuid, topic: string, ops: seq<ParsedOp>): seq<ParsedOp> {
    if ops == [] then []
    else
      var before := KeptOps(c, source, topic, ops[..|ops| - 1]);
      if Permitted(c, source, topic, ops[|ops| - 1].key) then before + [ops[|ops| - 1]] else before
  }

  method FilterOps(c: Codec, m: Msg) returns (kept: seq<ParsedOp>)
    ensures kept == KeptOps(c, m.source, m.topic, m.ops)
  {
    hide Permitted;
    kept := [];
    for i := 0 to |m.ops|
      invariant kept == KeptOps(c, m.source, m.topic, m.ops[..i])
    {
      assert m.ops[..i + 1][..i] == m.ops[..i];
      if Permitted(c, m.source, m.topic, m.ops[i].key) { kept := kept + [m.ops[i]]; }
    }
    assert m.ops[..|m.ops|] == m.ops;
  }

  lemma {:induction false} KeptArePermitted(c: Codec, source: Uuid, topic: string, ops: seq<ParsedOp>, i: nat)
    requires i < |KeptOps(c, source, topic, ops)|
    ensures Permitted(c, source, topic, KeptOps(c, source, topic, ops)[i].key)
  {
    hide Permitted;
    if i < |KeptOps(c, source, topic, ops[..|ops| - 1])| { KeptArePermitted(c, source, topic, ops[..|ops| - 1], i); }
  }

  /** Filtering the batch first and working through the rest is the same as skipping the refused ops on the way. */
  lemma {:induction false} FilteringFirst(c: Codec, conn: map<Uuid, set<Slot>>, cache: map<Slot, Written>, m: Msg,
                                          ops: seq<ParsedOp>)
    ensures Track(c, conn, m.source, m.topic, KeptOps(c, m.source, m.topic, ops))
            == Track(c, conn, m.source, m.topic, ops)
    ensures Store(c, cache, m, KeptOps(c, m.source, m.topic, ops)) == Store(c, cache, m, ops)
  {
    hide Permitted, ClassifyKey;
    if ops != [] {
      var n := |ops| - 1;
      FilteringFirst(c, conn, cache, m, ops[..n]);
      var before := KeptOps(c, m.source, m.topic, ops[..n]);
      if Permitted(c, m.source, m.topic, ops[n].key) { assert (before + [ops[n]])[..|before|] == before; }
    }
  }

  class Backend {
    const sessions: S.Registry
    var handlers: map<Uuid, ConnectionHandler>
    var bouncers: map<Uuid, Bouncer>
    var conn: map<Uuid, set<Slot>>
    var queue: seq<Msg>
    var data: seq<Uuid>                          // the Gone datagrams on the state topic
    var mixer: seq<Change>
    var pendingFree: map<Uuid, seq<ConnectionHandler>>
    var cache: map<Slot, Written>

    constructor (sessions: S.Registry)
      ensures this.sessions == sessions && handlers == map[] && bouncers == map[] && conn == map[]
      ensures queue == [] && data == [] && mixer == [] && pendingFree == map[] && cache == map[]
    {
      this.sessions := sessions;
      handlers, bouncers, conn, queue, data, mixer := map[], map[], map[], [], [], [];
      pendingFree, cache := map[], map[];
    }

    function Tracked(u: Uuid): set<Slot>
      reads this
    {
      if u in conn then conn[u] else {}
    }

    /** The dispatcher's turn on one message: filter, then store and track what is left, op by op. */
    method HandleStringMessage(c: Codec, m: Msg)
      modifies this`conn, this`cache
      ensures conn == Track(c, old(conn), m.source, m.topic, m.ops)
      ensures cache == Store(c, old(cache), m, m.ops)
    {
      hide Permitted, ClassifyKey, KeptOps;
      var kept := FilterOps(c, m);
      FilteringFirst(c, conn, cache, m, m.ops);
      for i := 0 to |kept|
        invariant conn == Track(c, old(conn), m.source, m.topic, kept[..i])
        invariant cache == Store(c, old(cache), m, kept[..i])
      {
        assert kept[..i + 1][..i] == kept[..i];
        KeptArePermitted(c, m.source, m.topic, m.ops, i);
        assert [kept[i]][..0] == [];
        StoreOp(c, m, kept[i]);
      }
      assert kept[..|kept|] == kept;
    }

    /** One permitted op: into the cache, and tracked or untracked. */
    method StoreOp(c: Codec, m: Msg, op: ParsedOp)
      requires Permitted(c, m.source, m.topic, op.key)
      modifies this`conn, this`cache
      ensures conn == Track(c, old(conn), m.source, m.topic, [op]) && cache == Store(c, old(cache), m, [op])
    {
      hide Permitted, ClassifyKey;
      assert [op][..0] == [];
      var k := Slot(m.topic, op.key);
      cache := cache[k := Written(m.origin, op.tombstone)];
      if op.tombstone { UntrackConnKey(c, k); } else { TrackConnKey(c, k); }
    }

    method TrackConnKey(c: Codec, k: Slot)
      modifies this`conn
      ensures var (scope, subject) := ClassifyKey(c, k.topic, k.key);
              conn == if scope == Connection && subject != NIL then old(conn)[subject := old(Tracked(subject)) + {k}]
                      else old(conn)
    {
      var (scope, subject) := ClassifyKey(c, k.topic, k.key);
      if scope != Connection || subject == NIL { return; }
      conn := conn[subject := Tracked(subject) + {k}];
    }

    /** Forgets a tombstoned key; the subject's entry stays, possibly empty. */
    method UntrackConnKey(c: Codec, k: Slot)
      modifies this`conn
      ensures var subject := ClassifyKey(c, k.topic, k.key).1;
              conn == if subject != NIL && subject in old(conn) then old(conn)[subject := old(conn)[subject] - {k}]
                      else old(conn)
    {
      var subject := ClassifyKey(c, k.topic, k.key).1;
      if subject == NIL { return; }
      if subject in conn { conn := conn[subject := conn[subject] - {k}]; }
    }

    /**
     * Per topic one batch of tombstones, attributes before entity before the rest, at the end of the queue; then Gone.
     */
    method AnnounceDeparture(e: S.Entry, client: BouncerClient?) returns (ghost pending: seq<Batch>)
      modifies this`queue, this`data, client
      ensures old(queue) <= queue && data == old(data) + [e.uuid]
      ensures IsSweep(old(Tracked(e.uuid)) + old(if client == null then {} else client.Sent()), pending)
      ensures AreBatches(e.generation, pending, queue[|old(queue)|..])
      ensures client != null ==> client.Sent() == {} && client.done == old(client.done)
    {
      var keysByTopic := AddKeys(map[], Tracked(e.uuid));
      if client != null {
        var attributes, entity := client.TakeSentKeys();
        keysByTopic := AddKeys(keysByTopic, SlotsOf(Batch("attributes", attributes)));
        keysByTopic := AddKeys(keysByTopic, SlotsOf(Batch("entity", entity)));
      }
      ghost var doomed := Slots(keysByTopic);
      assert doomed == old(Tracked(e.uuid)) + old(if client == null then {} else client.Sent());
      pending := SendBatches(e, keysByTopic);
      data := data + [e.uuid];
    }

    method SendBatches(e: S.Entry, keysByTopic: map<string, set<string>>) returns (ghost pending: seq<Batch>)
      modifies this`queue
      ensures old(queue) <= queue
      ensures IsSweep(Slots(keysByTopic), pending) && AreBatches(e.generation, pending, queue[|old(queue)|..])
    {
      var order := SweepTopicOrder(keysByTopic.Keys);
      ghost var sent: seq<Msg> := [];
      ghost var done: set<Slot> := {};
      pending := [];
      for i := 0 to |order|
        invariant queue == old(queue) + sent && AreBatches(e.generation, pending, sent)
        invariant IsSweep(done, pending)
        invariant forall p :: p in pending ==> p.topic in order[..i]
        invariant done == set k | k in Slots(keysByTopic) && k.topic in order[..i]
      {
        var topic := order[i];
        var ops := TombstoneBatch(keysByTopic[topic]);
        ghost var b := Batch(topic, keysByTopic[topic]);
        NextTopic(keysByTopic, order, i);
        if ops != [] {
          AppendBatch(done, pending, b);
          var m := Msg(FromDeparture(e.generation), NIL, topic, ops);
          queue := queue + [m];
          sent := sent + [m];
          pending := pending + [b];
        }
        done := done + SlotsOf(b);
      }
      assert done == Slots(keysByTopic);
      assert queue[|old(queue)|..] == sent;
    }

    /** Forwards a message of the session behind b, unless its Stop has crossed the barrier. */
    method SendString(b: Bouncer, m: Msg)
      modifies this`queue
      ensures queue == if b.stopped then old(queue) else old(queue) + [m]
    {
      if b.stopped { return; }
      queue := queue + [m];
    }

    /** Admission proper, under one lock: recheck, refuse, or install entry, handler and bouncer and add the node. */
    method NewConnectionHandler(id: Uuid, transport: S.Transport, admitted: S.Outcome, nodeExists: bool, full: bool,
                                now: int)
      returns (r: Result<ConnectionHandler, Refusal>)
      requires sessions.Valid()
      modifies this`handlers, this`bouncers, this`mixer, sessions
      ensures sessions.Valid()
      ensures r.Err? <==> !admitted.ok || id in old(sessions.entries) || (nodeExists && !admitted.waited) || full
      ensures r.Err? ==>
                && handlers == old(handlers) && bouncers == old(bouncers) && mixer == old(mixer)
                && sessions.entries == old(sessions.entries)
                && (r.error.ServerFull? <==>
                      admitted.ok && id !in old(sessions.entries) && !(nodeExists && !admitted.waited))
      ensures r.Ok? ==>
                && fresh(r.value) && handlers == old(handlers)[id := r.value] && r.value.isActive
                && id in bouncers && fresh(bouncers[id]) && bouncers == old(bouncers)[id := bouncers[id]]
                   && !bouncers[id].stopped
                && id in sessions.entries && sessions.entries == old(sessions.entries)[id := sessions.entries[id]]
                && var e := sessions.entries[id];
                   r.value.entry == e && fresh(e) && e.state == S.Live && e.generation == old(sessions.gen) + 1
      ensures r.Ok? ==> mixer == old(mixer) + [AddNode(id)]
    {
      if !admitted.ok { return Err(Duplicate); }
      if id in sessions.entries && sessions.entries[id].state != S.Departed { return Err(Duplicate); }
      if !admitted.waited && nodeExists { return Err(Duplicate); }
      if full { return Err(ServerFull); }
      var client := new BouncerClient();
      var bouncer := new Bouncer(client);
      var _, e := sessions.Register(id, transport, now);
      var handler := new ConnectionHandler(e);
      handlers := handlers[id := handler];
      bouncers := bouncers[id := bouncer];
      mixer := mixer + [AddNode(id)];
      r := Ok(handler);
    }

    /** The client behind the bouncer held for u, if there is one. */
    function ClientOf(u: Uuid): BouncerClient?
      reads this, bouncers.Values
    {
      if u in bouncers then bouncers[u].client else null
    }

    function SentBy(u: Uuid): set<Slot>
      reads this, bouncers.Values, ClientOf(u)
    {
      if ClientOf(u) == null then {} else ClientOf(u).Sent()
    }

    ghost function Footprint(e: S.Entry): set<object>
      reads this, bouncers.Values
    {
      {this, sessions, e, e.transport}
      + (if e.uuid in handlers then {handlers[e.uuid]} else {})
      + (if e.uuid in bouncers then {bouncers[e.uuid]} else {})
      + (if ClientOf(e.uuid) != null then {ClientOf(e.uuid)} else {})
    }

    /** The handler held for e's uuid is e's own, nobody's, or a departed entry's. */
    predicate Claims(e: S.Entry)
      reads this, handlers.Values, set h | h in handlers.Values && h.entry != null :: h.entry
    {
      e.uuid in handlers
      && var h := handlers[e.uuid]; h.entry == e || h.entry == null || h.entry.state == S.Departed
    }

    /** Phases 1 and 2: close the transport, silence the handler and stop the bouncer; nothing can be enqueued after. */
    method Sever(e: S.Entry) returns (handler: ConnectionHandler?, bouncer: Bouncer?, client: BouncerClient?)
      requires e.state == S.Departing
      modifies e.transport, if e.uuid in handlers then {handlers[e.uuid]} else {}
      modifies if e.uuid in bouncers then {bouncers[e.uuid]} else {}
      modifies if ClientOf(e.uuid) != null then {ClientOf(e.uuid)} else {}
      ensures !e.transport.open
      ensures handler == if old(Claims(e)) then handlers[e.uuid] else null
      ensures handler != null ==> !handler.isActive
      ensures bouncer == if e.uuid in bouncers then bouncers[e.uuid] else null
      ensures bouncer != null ==> bouncer.quit && bouncer.stopped && bouncer.client == null
      ensures client == old(ClientOf(e.uuid)) && (client != null ==> client.done && client.Sent() == old(client.Sent()))
    {
      e.transport.Kill();
      handler := if e.uuid in handlers then handlers[e.uuid] else null;
      if handler != null && handler.entry != e && handler.entry != null && handler.entry.state != S.Departed {
        handler := null;
      }
      bouncer := if e.uuid in bouncers then bouncers[e.uuid] else null;
      client := null;
      if handler != null { handler.isActive := false; }
      if bouncer != null { client := bouncer.client; }
      if client != null { client.Quiesce(); }
      if bouncer != null { bouncer.Stop(); }
    }

    /** Phase 5, identity-checked against what was captured. */
    method Release(u: Uuid, handler: ConnectionHandler?, bouncer: Bouncer?)
      modifies this`handlers, this`bouncers, this`conn, this`pendingFree
      ensures handlers == if handler != null && u in old(handlers) && old(handlers)[u] == handler
                          then old(handlers) - {u} else old(handlers)
      ensures bouncers == if bouncer != null && u in old(bouncers) && old(bouncers)[u] == bouncer
                          then old(bouncers) - {u} else old(bouncers)
      ensures conn == old(conn) - {u}
      ensures handlers != old(handlers) ==>
                u in pendingFree && pendingFree[u] != [] && pendingFree[u][|pendingFree[u]| - 1] == handler
    {
      if handler != null && u in handlers && handlers[u] == handler {
        pendingFree := pendingFree[u := (if u in pendingFree then pendingFree[u] else []) + [handlers[u]]];
        handlers := handlers - {u};
      }
      if bouncer != null && u in bouncers && bouncers[u] == bouncer { bouncers := bouncers - {u}; }
      conn := conn - {u};
    }

    /** Phases 1 to 5, for the one that won the entry. */
    method RunDeparture(e: S.Entry) returns (ghost pending: seq<Batch>)
      requires e.state == S.Departing
      modifies Footprint(e) - {sessions, e}
      ensures !e.transport.open
      ensures old(queue) <= queue && AreBatches(e.generation, pending, queue[|old(queue)|..])
      ensures IsSweep(old(Tracked(e.uuid)) + old(SentBy(e.uuid)), pending)
      ensures mixer == old(mixer) + [DeleteNode(e.uuid)] && data == old(data) + [e.uuid]
      ensures handlers == (if old(Claims(e)) then old(handlers) - {e.uuid} else old(handlers))
      ensures bouncers == old(bouncers) - {e.uuid}
      ensures conn == old(conn) - {e.uuid}
      ensures e.uuid in old(bouncers) ==> old(bouncers)[e.uuid].quit && old(bouncers)[e.uuid].stopped
    {
      hide IsSweep, AreBatches, GoesBefore, SlotsOf;
      var handler, bouncer, client := Sever(e);
      pending := AnnounceDeparture(e, client);
      mixer := mixer + [DeleteNode(e.uuid)];
      Release(e.uuid, handler, bouncer);
    }

    /** Everything the winner does. */
    method CompleteDeparture(e: S.Entry) returns (ghost pending: seq<Batch>)
      requires sessions.Valid() && e.state == S.Departing
      modifies Footprint(e)
      ensures sessions.Valid() && e.state == S.Departed && !e.transport.open
      ensures old(queue) <= queue && AreBatches(e.generation, pending, queue[|old(queue)|..])
      ensures IsSweep(old(Tracked(e.uuid)) + old(SentBy(e.uuid)), pending)
      ensures mixer == old(mixer) + [DeleteNode(e.uuid)] && data == old(data) + [e.uuid]
      ensures handlers == (if old(Claims(e)) then old(handlers) - {e.uuid} else old(handlers))
      ensures bouncers == old(bouncers) - {e.uuid} && conn == old(conn) - {e.uuid} && sessions.gen == old(sessions.gen)
      ensures sessions.entries == (if e.uuid in old(sessions.entries) && old(sessions.entries)[e.uuid] == e
                                   then old(sessions.entries) - {e.uuid} else old(sessions.entries))
      ensures e.uuid in old(bouncers) ==> old(bouncers)[e.uuid].quit && old(bouncers)[e.uuid].stopped
    {
      hide IsSweep, AreBatches, GoesBefore, SlotsOf, InSweepOrder, Claims, SentBy, Tracked;
      pending := RunDeparture(e);
      sessions.Unregister(e);
      e.MarkDeparted();
    }

    /**
     * The departure funnel: the winner of the compare-and-swap severs, announces last in the queue, removes, releases
     * and unregisters; everyone else changes nothing.
     */
    method DepartNode(e: S.Entry) returns (won: bool, ghost pending: seq<Batch>)
      requires sessions.Valid()
      modifies Footprint(e)
      ensures sessions.Valid() && (won <==> old(e.state) == S.Live)
      ensures !won ==> unchanged(old(Footprint(e)) - {e}) && e.state == old(e.state)
      ensures won ==>
                && e.state == S.Departed && !e.transport.open
                && old(queue) <= queue && AreBatches(e.generation, pending, queue[|old(queue)|..])
                && IsSweep(old(Tracked(e.uuid)) + old(SentBy(e.uuid)), pending)
                && mixer == old(mixer) + [DeleteNode(e.uuid)] && data == old(data) + [e.uuid]
                && handlers == (if old(Claims(e)) then old(handlers) - {e.uuid} else old(handlers))
                && bouncers == old(bouncers) - {e.uuid}
                && conn == old(conn) - {e.uuid} && sessions.gen == old(sessions.gen)
                && sessions.entries == (if e.uuid in old(sessions.entries) && old(sessions.entries)[e.uuid] == e
                                        then old(sessions.entries) - {e.uuid} else old(sessions.entries))
      ensures won && e.uuid in old(bouncers) ==> old(bouncers)[e.uuid].quit && old(bouncers)[e.uuid].stopped
      ensures won && e.uuid in old(handlers) && old(handlers)[e.uuid].entry != null && old(handlers)[e.uuid].entry != e
              && old(handlers[e.uuid].entry.state) != S.Departed ==>
                handlers == old(handlers)
      ensures won && e.uuid in old(handlers)
              && (old(handlers)[e.uuid].entry == e || old(handlers)[e.uuid].entry == null) ==>
                handlers == old(handlers) - {e.uuid}
    {
      hide IsSweep, AreBatches, GoesBefore, SlotsOf, InSweepOrder;
      pending := [];
      won := e.TryBeginDeparture();
      if won {
        assert SentBy(e.uuid) == old(SentBy(e.uuid)) && Claims(e) == old(Claims(e));
        pending := CompleteDeparture(e);
      }
    }
  }

  lemma NextTopic(keysByTopic: map<string, set<string>>, order: seq<string>, i: nat)
    requires i < |order| && order[i] in keysByTopic && InSweepOrder(order)
    ensures (set k | k in Slots(keysByTopic) && k.topic in order[..i + 1])
            == (set k | k in Slots(keysByTopic) && k.topic in order[..i])
               + SlotsOf(Batch(order[i], keysByTopic[order[i]]))
    ensures forall t :: t in order[..i] ==> GoesBefore(t, order[i])
  {
    assert order[..i + 1] == order[..i] + [order[i]];
  }
}
