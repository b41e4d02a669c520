/** The session registry: entries with a generation and a one-way lifecycle, and identity-checked removal. */
module Sessions {
  import opened Common
  import opened Scope

  datatype Lifecycle = Live | Departing | Departed

  /** A transport's handle on one client session. */
  class Transport {
    var open: bool

    constructor ()
      ensures open
    {
      open := true;
    }

    method Kill()
      modifies this
      ensures !open
    {
      open := false;
    }
  }

  class Entry {
    const uuid: Uuid
    const transport: Transport
    const generation: nat
    const admittedAt: int
    var state: Lifecycle

    constructor (uuid: Uuid, transport: Transport, generation: nat, admittedAt: int)
      ensures this.uuid == uuid && this.transport == transport && this.generation == generation
      ensures this.admittedAt == admittedAt && state == Live
    {
      this.uuid, this.transport, this.generation, this.admittedAt := uuid, transport, generation, admittedAt;
      state := Live;
    }

    /** The Live -> Departing compare-and-swap: exactly one caller wins. */
    method TryBeginDeparture() returns (won: bool)
      modifies this
      ensures won <==> old(state) == Live
      ensures state == if won then Departing else old(state)
    {
      won := state == Live;
      if won { state := Departing; }
    }

    method MarkDeparted()
      modifies this
      ensures state == Departed
    {
      state := Departed;
    }
  }

  class Registry {
    var entries: map<Uuid, Entry>
    var gen: nat

    /** Entries sit under their own uuid, carry a generation already handed out, and none of them has departed. */
    ghost predicate Valid()
      reads this, entries.Values
    {
      forall u :: u in entries ==>
        entries[u].uuid == u && entries[u].generation <= gen && entries[u].state != Departed
    }

    constructor ()
      ensures Valid() && entries == map[] && gen == 0
    {
      entries, gen := map[], 0;
    }

    method Register(id: Uuid, transport: Transport, now: int) returns (displaced: Option<Entry>, e: Entry)
      requires Valid()
      modifies this
      ensures Valid() && fresh(e)
      ensures e.uuid == id && e.transport == transport && e.admittedAt == now && e.state == Live
              && e.generation == old(gen) + 1 == gen
      ensures entries == old(entries)[id := e]
      ensures displaced == if id in old(entries) then Some(old(entries)[id]) else None
    {
      gen := gen + 1;
      e := new Entry(id, transport, gen, now);
      displaced := if id in entries then Some(entries[id]) else None;
      entries := entries[id := e];
    }

    /** Installs a synthetic entry exactly when the uuid has none. */
    method RegisterOrphan(id: Uuid, now: int) returns (e: Option<Entry>)
      requires Valid()
      modifies this
      ensures Valid()
      ensures e.None? <==> id in old(entries)
      ensures e.None? ==> entries == old(entries) && gen == old(gen)
      ensures e.Some? ==>
                && fresh(e.value) && fresh(e.value.transport) && entries == old(entries)[id := e.value]
                && e.value.uuid == id && e.value.state == Live && e.value.generation == old(gen) + 1 == gen
    {
      if id in entries { return None; }
      var transport := new Transport();
      gen := gen + 1;
      var x := new Entry(id, transport, gen, now);
      entries := entries[id := x];
      e := Some(x);
    }

    /** Removes e exactly when it is still the current entry: an old teardown cannot remove a successor. */
    method Unregister(e: Entry)
      requires Valid()
      modifies this
      ensures Valid() && gen == old(gen)
      ensures entries == if e.uuid in old(entries) && old(entries)[e.uuid] == e then old(entries) - {e.uuid}
                         else old(entries)
    {
      if e.uuid in entries && entries[e.uuid] == e { entries := entries - {e.uuid}; }
    }

    // ---------------------------------------------------------------- admission

    /** What the goroutines running the old session's departure do to its entry while someone waits. */
    method Await(e: Entry, reached: Lifecycle)
      requires Valid()
      modifies this, e
      ensures Valid() && e.state == Further(old(e.state), reached)
      ensures e.state == Departed && old(e.state) != Departed ==>
                entries == if e.uuid in old(entries) && old(entries)[e.uuid] == e then old(entries) - {e.uuid}
                           else old(entries)
      ensures e.state != Departed || old(e.state) == Departed ==> entries == old(entries)
    {
      if reached == Departing && e.state == Live {
        e.state := Departing;
      } else if reached == Departed && e.state != Departed {
        Unregister(e);
        e.MarkDeparted();
      }
    }

    /** DepartNode, as far as the registry sees it: completes an unclaimed departure, and leaves a claimed one alone. */
    method ForceDepart(e: Entry)
      requires Valid()
      modifies this, e
      ensures Valid() && e.state == if old(e.state) == Live then Departed else old(e.state)
      ensures entries == if old(e.state) == Live && e.uuid in old(entries) && old(entries)[e.uuid] == e
                         then old(entries) - {e.uuid} else old(entries)
    {
      var won := e.TryBeginDeparture();
      if won {
        Unregister(e);
        e.MarkDeparted();
      }
    }

    /**
     * Evict, wait, force, wait. first and second say how far other goroutines had taken the old entry when each wait
     * ended. Only a departure that was claimed elsewhere and never completes refuses the newcomer.
     */
    method Admit(id: Uuid, first: Lifecycle, second: Lifecycle) returns (out: Outcome)
      requires Valid()
      modifies this, entries.Values, set e | e in entries.Values :: e.transport
      ensures Valid()
      ensures id !in old(entries) ==> out == Outcome(true, false, false) && entries == old(entries)
      ensures id in old(entries) ==>
                var e := old(entries)[id];
                var claimed := Further(old(e.state), first) == Departing;
                && out.evicted == (old(e.state) == Live)
                && (out.evicted ==> !e.transport.open)
                && (out.ok <==> !(claimed && second != Departed))
                && out.waited == out.ok
                && (if out.ok then e.state == Departed && entries == old(entries) - {id}
                    else e.state == Departing && entries == old(entries))
      ensures out.ok ==> id !in entries
    {
      if id !in entries { return Outcome(true, false, false); }
      var e := entries[id];
      out := Outcome(false, false, false);
      if e.state == Live {
        out := out.(evicted := true);
        e.transport.Kill();
      }
      Await(e, first);
      if e.state == Departed { return out.(ok := true, waited := true); }
      ForceDepart(e);
      Await(e, second);
      if e.state == Departed { out := out.(ok := true, waited := true); }
    }
  }

  datatype Outcome = Outcome(ok: bool, waited: bool, evicted: bool)

  /** The lifecycle runs from Live over Departing to Departed, and Further is the position nearer its end. */
  lemma FurtherIsTheLater(a: Lifecycle, b: Lifecycle)
    ensures Further(a, b) == a || Further(a, b) == b
    ensures Further(a, b) == Live <==> a == Live && b == Live
    ensures Further(a, b) == Departed <==> a == Departed || b == Departed
  {
  }

  /** The later of two lifecycle positions. */
  function Further(a: Lifecycle, b: Lifecycle): Lifecycle {
    if a == Departed || b == Departed then Departed else if a == Departing || b == Departing then Departing else Live
  }
}
