/**
 * The backend's objects stand for a state of the transition system, and DepartNode takes them where its departure does.
 */
module BackendRefines {
  import opened Common
  import opened Scope
  import opened Protocol
  import opened Departure
  import opened DepartureRuns
  import S = Sessions

  /** Registry, queues, handlers and bouncers are those of the state. */
  ghost predicate Represents(b: Backend, s: State)
    reads b, b.sessions, b.sessions.entries.Values, b.handlers.Values, b.bouncers.Values
    reads set x | x in b.bouncers.Values && x.client != null :: x.client
  {
    && b.sessions.Valid() && b.sessions.gen + 1 == s.nextGen
    && b.queue == s.log && b.mixer == s.mixer && b.conn == s.conn
    && EntriesStand(b.sessions.entries, s) && HandlersStand(b.handlers, b.sessions.entries, s)
       && BouncersStand(b.bouncers, s)
  }

  ghost predicate EntriesStand(entries: map<Uuid, S.Entry>, s: State)
    reads entries.Values
  {
    && (forall u :: u in entries <==> u in s.registry)
    && (forall u :: u in entries ==> entries[u].uuid == u && EntryStands(entries[u], s, s.registry[u]))
  }

  ghost predicate HandlersStand(handlers: map<Uuid, ConnectionHandler>, entries: map<Uuid, S.Entry>, s: State) {
    && (forall u :: u in handlers <==> u in s.handlers)
    && (forall u :: u in handlers ==> u in entries && handlers[u].entry == entries[u])
  }

  /** The bouncers and clients of different uuids are different objects. */
  ghost predicate BouncersStand(bouncers: map<Uuid, Bouncer>, s: State)
    reads bouncers.Values
    reads set x | x in bouncers.Values && x.client != null :: x.client
  {
    && (forall u :: u in bouncers <==> u in s.bouncers)
    && (forall u :: u in bouncers ==> BouncerStands(bouncers[u], s, s.bouncers[u]))
    && (forall u, v :: u in bouncers && v in bouncers && u != v ==> Apart(bouncers[u], bouncers[v]))
  }

  predicate EntryStands(e: S.Entry, s: State, g: Gen)
    reads e
  {
    e.generation == g && g in s.sess && (e.state == S.Live <==> s.sess[g].phase == LIVE)
  }

  predicate BouncerStands(x: Bouncer, s: State, g: Gen)
    reads x, x.client
  {
    && g in s.sess && x.stopped == s.sess[g].stopped
    && (if x.client == null then x.stopped else x.client.Sent() == s.sess[g].sent)
  }

  predicate Apart(x: Bouncer, y: Bouncer)
    reads x, y
  {
    x != y && (x.client != null ==> x.client != y.client)
  }

  lemma LiveEntry(b: Backend, s: State, e: S.Entry)
    requires Represents(b, s) && Ownership(s)
    requires e.uuid in b.sessions.entries && b.sessions.entries[e.uuid] == e && e.state == S.Live
    ensures InPhase(s, e.generation, LIVE) && s.sess[e.generation].uuid == e.uuid
    ensures e.uuid in b.handlers ==> b.Claims(e)
  {
    hide BouncersStand;
    assert EntryStands(e, s, s.registry[e.uuid]);
    assert Typed(s.sess, s.nextGen, s.registry);
    hide Registered, Held, SessionsOk;
  }

  /** The keys a departure finds in the objects are the keys it finds in the state. */
  lemma LiveKeys(b: Backend, s: State, g: Gen)
    requires BouncersStand(b.bouncers, s) && b.conn == s.conn && Ownership(s) && InPhase(s, g, LIVE)
    ensures var u := s.sess[g].uuid; b.Tracked(u) + b.SentBy(u) == Tracked(s, u) + s.sess[g].sent
  {
    hide Typed, Registered, Held;
    var u := s.sess[g].uuid;
    SessionFacts(s, g);
    OwnMaps(s, g);
    hide Ownership, SessionsOk;
    assert u in b.bouncers <==> !s.sess[g].orphan;
    if u in b.bouncers {
      assert BouncerStands(b.bouncers[u], s, s.bouncers[u]);
      hide BouncersStand;
    }
  }

  /** The entries and bouncers of other uuids are other sessions'. */
  lemma OtherGens(s: State, g: Gen)
    requires Ownership(s) && g in s.sess
    ensures forall u :: u in s.registry && u != s.sess[g].uuid ==> s.registry[u] != g
    ensures forall u :: u in s.bouncers && u != s.sess[g].uuid ==> s.bouncers[u] != g
  {
    assert Typed(s.sess, s.nextGen, s.registry) && Held(s.sess, s.bouncers);
  }

  /** s without u: what is left when only the other uuids' objects are looked at. */
  function Others(s: State, u: Uuid): State { s.(registry := s.registry - {u}, bouncers := s.bouncers - {u}) }

  lemma OthersStand(b: Backend, s: State, u: Uuid)
    requires EntriesStand(b.sessions.entries, s) && BouncersStand(b.bouncers, s)
    ensures EntriesStand(b.sessions.entries - {u}, Others(s, u)) && BouncersStand(b.bouncers - {u}, Others(s, u))
  {
    hide EntryStands, BouncerStands, Apart;
    forall v | v in b.bouncers - {u}
      ensures BouncerStands(b.bouncers[v], Others(s, u), s.bouncers[v])
    {
      BouncerKnown(b.bouncers[v], s, s.bouncers[v]);
      SameBouncer(b.bouncers[v], s, Others(s, u), s.bouncers[v]);
    }
    forall v | v in b.sessions.entries - {u}
      ensures EntryStands(b.sessions.entries[v], Others(s, u), s.registry[v])
    {
      EntryKnown(b.sessions.entries[v], s, s.registry[v]);
      SameEntry(b.sessions.entries[v], s, Others(s, u), s.registry[v]);
    }
  }

  lemma SameEntry(e: S.Entry, s: State, t: State, g: Gen)
    requires EntryStands(e, s, g) && g in t.sess && t.sess[g] == s.sess[g]
    ensures EntryStands(e, t, g)
  {
  }

  lemma SameBouncer(x: Bouncer, s: State, t: State, g: Gen)
    requires BouncerStands(x, s, g) && g in t.sess && t.sess[g] == s.sess[g]
    ensures BouncerStands(x, t, g)
  {
  }

  lemma EntriesAfter(entries: map<Uuid, S.Entry>, s: State, t: State, g: Gen, messages: seq<Msg>)
    requires g in s.sess && Departed(s, t, g, messages) && EntriesStand(entries, Others(s, s.sess[g].uuid))
    requires forall u :: u in s.registry && u != s.sess[g].uuid ==> s.registry[u] != g
    ensures EntriesStand(entries, t)
  {
    hide EntryStands;
    forall u | u in entries
      ensures EntryStands(entries[u], t, t.registry[u])
    {
      assert EntryStands(entries[u], Others(s, s.sess[g].uuid), s.registry[u]);
      assert s.registry[u] in s.sess by { EntryKnown(entries[u], Others(s, s.sess[g].uuid), s.registry[u]); }
      SameEntry(entries[u], Others(s, s.sess[g].uuid), t, s.registry[u]);
    }
  }

  lemma EntryKnown(e: S.Entry, s: State, g: Gen)
    requires EntryStands(e, s, g)
    ensures g in s.sess
  {
  }

  lemma BouncerKnown(x: Bouncer, s: State, g: Gen)
    requires BouncerStands(x, s, g)
    ensures g in s.sess
  {
  }

  lemma BouncersAfter(bouncers: map<Uuid, Bouncer>, s: State, t: State, g: Gen, messages: seq<Msg>)
    requires g in s.sess && Departed(s, t, g, messages) && BouncersStand(bouncers, Others(s, s.sess[g].uuid))
    requires forall u :: u in s.bouncers && u != s.sess[g].uuid ==> s.bouncers[u] != g
    ensures BouncersStand(bouncers, t)
  {
    hide BouncerStands, Apart;
    forall u | u in bouncers
      ensures BouncerStands(bouncers[u], t, t.bouncers[u])
    {
      assert BouncerStands(bouncers[u], Others(s, s.sess[g].uuid), s.bouncers[u]);
      BouncerKnown(bouncers[u], Others(s, s.sess[g].uuid), s.bouncers[u]);
      SameBouncer(bouncers[u], Others(s, s.sess[g].uuid), t, s.bouncers[u]);
    }
  }

  lemma HandlersAfter(handlers: map<Uuid, ConnectionHandler>, entries: map<Uuid, S.Entry>, s: State, t: State, g: Gen,
                      messages: seq<Msg>)
    requires HandlersStand(handlers, entries, s) && g in s.sess && Departed(s, t, g, messages)
    ensures HandlersStand(handlers - {s.sess[g].uuid}, entries - {s.sess[g].uuid}, t)
  {
  }

  predicate IsLive(b: Backend, e: S.Entry)
    reads b.sessions, e
  {
    e.uuid in b.sessions.entries && b.sessions.entries[e.uuid] == e && e.state == S.Live
  }

  /** DepartNode on a live entry takes exactly that uuid's objects and leaves the others as they stand. */
  method DepartAlone(b: Backend, e: S.Entry, ghost s: State) returns (ghost pending: seq<Batch>)
    requires b.sessions.Valid() && IsLive(b, e) && (e.uuid in b.handlers ==> b.Claims(e)) && AreApart(b, e)
    requires EntriesStand(b.sessions.entries - {e.uuid}, Others(s, e.uuid))
    requires BouncersStand(b.bouncers - {e.uuid}, Others(s, e.uuid))
    modifies b.Footprint(e)
    ensures b.sessions.Valid() && b.sessions.gen == old(b.sessions.gen)
            && b.sessions.entries == old(b.sessions.entries) - {e.uuid}
    ensures b.handlers == old(b.handlers) - {e.uuid} && b.conn == old(b.conn) - {e.uuid}
    ensures b.mixer == old(b.mixer) + [DeleteNode(e.uuid)] && old(b.queue) <= b.queue
    ensures AreBatches(e.generation, pending, b.queue[|old(b.queue)|..])
    ensures IsSweep(old(b.Tracked(e.uuid)) + old(b.SentBy(e.uuid)), pending)
    ensures EntriesStand(b.sessions.entries, Others(s, e.uuid)) && BouncersStand(b.bouncers, Others(s, e.uuid))
  {
    hide IsSweep, AreBatches, EntriesStand, BouncersStand, Others, Backend.Claims, Backend.SentBy, Backend.Tracked;
    var won;
    won, pending := b.DepartNode(e);
  }

  /** e is no other uuid's entry, and its bouncer and client are no other uuid's. */
  ghost predicate AreApart(b: Backend, e: S.Entry)
    reads b, b.sessions, b.bouncers.Values
  {
    && (forall v :: v in b.sessions.entries && v != e.uuid ==> b.sessions.entries[v] != e)
    && (forall v :: v in b.bouncers && v != e.uuid && e.uuid in b.bouncers ==>
          Apart(b.bouncers[v], b.bouncers[e.uuid]) && Apart(b.bouncers[e.uuid], b.bouncers[v]))
  }

  lemma EntriesAndBouncersAreApart(b: Backend, s: State, e: S.Entry)
    requires EntriesStand(b.sessions.entries, s) && BouncersStand(b.bouncers, s)
    ensures AreApart(b, e)
  {
    hide EntryStands, BouncerStands, Apart;
  }

  /** DepartNode on a live entry is the system's departure of that session, run without interruption. */
  method DepartNodeRefines(c: Codec, b: Backend, e: S.Entry, ghost s: State) returns (ghost t: State)
    requires Represents(b, s) && Ownership(s) && IsLive(b, e)
    requires InPhase(s, e.generation, LIVE) ==> s.sess[e.generation].inflight == multiset{}
    modifies b.Footprint(e)
    ensures LeadsTo(c, s, t) && InPhase(s, e.generation, LIVE) && |s.log| <= |b.queue|
    ensures Departed(s, t, e.generation, b.queue[|s.log|..])
    ensures Represents(b, t)
  {
    hide Ownership, IsSweep, AreBatches, LeadsTo, Tracked, EntriesStand, HandlersStand, BouncersStand, Departed, Others,
         AreApart;
    LiveEntry(b, s, e);
    LiveKeys(b, s, e.generation);
    OthersStand(b, s, e.uuid);
    EntriesAndBouncersAreApart(b, s, e);
    ghost var entries, handlers := b.sessions.entries, b.handlers;
    ghost var pending := DepartAlone(b, e, s);
    t := Follows(c, b, s, e.generation, pending, b.queue[|s.log|..], handlers, entries);
  }

  lemma Follows(c: Codec, b: Backend, s: State, g: Gen, pending: seq<Batch>, messages: seq<Msg>,
                handlers: map<Uuid, ConnectionHandler>, entries: map<Uuid, S.Entry>) returns (t: State)
    requires Ownership(s) && InPhase(s, g, LIVE) && s.sess[g].inflight == multiset{}
    requires IsSweep(Tracked(s, s.sess[g].uuid) + s.sess[g].sent, pending) && AreBatches(g, pending, messages)
    requires b.sessions.Valid() && b.sessions.gen + 1 == s.nextGen && HandlersStand(handlers, entries, s)
    requires b.sessions.entries == entries - {s.sess[g].uuid} && b.handlers == handlers - {s.sess[g].uuid}
    requires b.conn == s.conn - {s.sess[g].uuid} && b.mixer == s.mixer + [DeleteNode(s.sess[g].uuid)]
             && b.queue == s.log + messages
    requires EntriesStand(b.sessions.entries, Others(s, s.sess[g].uuid))
             && BouncersStand(b.bouncers, Others(s, s.sess[g].uuid))
    ensures LeadsTo(c, s, t) && Departed(s, t, g, messages) && Represents(b, t)
  {
    hide Ownership, IsSweep, AreBatches, LeadsTo, Tracked, EntriesStand, HandlersStand, BouncersStand, Departed, Others;
    OtherGens(s, g);
    UninterruptedDeparture(c, s, g, pending, messages);
    t :| LeadsTo(c, s, t) && Departed(s, t, g, messages);
    EntriesAfter(b.sessions.entries, s, t, g, messages);
    HandlersAfter(handlers, entries, s, t, g, messages);
    BouncersAfter(b.bouncers, s, t, g, messages);
    QueuesAfter(s, t, g, messages);
  }

  lemma QueuesAfter(s: State, t: State, g: Gen, messages: seq<Msg>)
    requires g in s.sess && Departed(s, t, g, messages)
    ensures t.log == s.log + messages && t.nextGen == s.nextGen
    ensures var u := s.sess[g].uuid; t.mixer == s.mixer + [DeleteNode(u)] && t.conn == s.conn - {u}
  {
  }

  /** Whatever a sender that still holds the bouncer tries after the departure, the sweep stays last in the queue. */
  method LateSendIsDropped(b: Backend, e: S.Entry, bouncer: Bouncer, m: Msg) returns (ghost pending: seq<Batch>)
    requires b.sessions.Valid() && e.state == S.Live && e.uuid in b.bouncers && b.bouncers[e.uuid] == bouncer
    modifies b.Footprint(e)
    ensures old(b.queue) <= b.queue && AreBatches(e.generation, pending, b.queue[|old(b.queue)|..])
    ensures IsSweep(old(b.Tracked(e.uuid)) + old(b.SentBy(e.uuid)), pending)
  {
    hide IsSweep, AreBatches;
    var won;
    won, pending := b.DepartNode(e);
    b.SendString(bouncer, m);
  }
}
