/** The space as the audio thread works on it: the op queue, the mutators, the role effects and the slots. */
module BaseSpace {
  import opened Common
  import opened Scope
  import opened SpaceModel
  import opened SpaceQueue
  import opened RoleEffects
  import opened Slots

  class Node {
    const uuid: Uuid
    const cfgGain: real
    const cfgAttenuation: real
    const slotIndex: nat
    const encoder: Encoder

    constructor (uuid: Uuid, gain: real, attenuation: real, slot: nat)
      ensures this.uuid == uuid && cfgGain == gain && cfgAttenuation == attenuation && slotIndex == slot
      ensures fresh(encoder) && forall rules :: Current(encoder.View(), rules)
      ensures Facade() == Own(gain, attenuation, gain, attenuation, false, {}, {}, {}, {})
    {
      this.uuid, cfgGain, cfgAttenuation, slotIndex := uuid, gain, attenuation, slot;
      encoder := new Encoder(gain, attenuation);
    }

    /** The node's own fields, without anything cached. */
    function Facade(): Own
      reads encoder
    {
      Own(encoder.gain, encoder.attenuation, cfgGain, cfgAttenuation, encoder.spaceMuted,
          encoder.roles, encoder.muteRoles, encoder.mutes, encoder.solos)
    }
  }

  /** What a recomputation of the role effects leaves alone. */
  lemma RefreshKeepsOwn(e: Enc, rules: Rules)
    ensures var r := Refreshed(e, rules);
            && r.gain == e.gain && r.attenuation == e.attenuation && r.muted == e.muted && r.roles == e.roles
            && r.muteRoles == e.muteRoles && r.mutes == e.mutes && r.solos == e.solos && Current(r, rules)
  {
  }

  ghost function EncodersOf(nodes: map<Uuid, Node>): set<object> {
    set n | n in nodes.Values :: n.encoder
  }

  ghost function FacadesOf(nodes: map<Uuid, Node>): map<Uuid, Own>
    reads EncodersOf(nodes)
  {
    map u | u in nodes :: nodes[u].Facade()
  }

  ghost predicate AllCurrentOf(nodes: map<Uuid, Node>, rules: Rules)
    reads EncodersOf(nodes)
  {
    forall u :: u in nodes ==> Current(nodes[u].encoder.View(), rules)
  }

  predicate DistinctNodes(nodes: map<Uuid, Node>) {
    && (forall u :: u in nodes ==> nodes[u].uuid == u)
    && (forall u, v :: u in nodes && v in nodes && u != v ==> nodes[u].encoder != nodes[v].encoder)
  }

  function IndexesOf(nodes: map<Uuid, Node>): map<Uuid, nat> { map u | u in nodes :: nodes[u].slotIndex }

  /** One more node, with an encoder of its own. */
  lemma WithNode(nodes: map<Uuid, Node>, node: Node, rules: Rules)
    requires DistinctNodes(nodes) && AllCurrentOf(nodes, rules) && node.uuid !in nodes
    requires Current(node.encoder.View(), rules) && node.encoder !in EncodersOf(nodes)
    ensures var more := nodes[node.uuid := node];
            && DistinctNodes(more) && AllCurrentOf(more, rules)
            && FacadesOf(more) == FacadesOf(nodes)[node.uuid := node.Facade()]
            && IndexesOf(more) == IndexesOf(nodes)[node.uuid := node.slotIndex]
  {
    hide Current, Node.Facade, Encoder.View;
    assert forall u :: u in nodes ==> nodes[u].encoder in EncodersOf(nodes);
    hide EncodersOf;
  }

  lemma WithoutNode(nodes: map<Uuid, Node>, u: Uuid, rules: Rules)
    requires DistinctNodes(nodes) && AllCurrentOf(nodes, rules)
    ensures var less := nodes - {u};
            && DistinctNodes(less) && AllCurrentOf(less, rules)
            && FacadesOf(less) == FacadesOf(nodes) - {u} && IndexesOf(less) == IndexesOf(nodes) - {u}
  {
    hide Current, Node.Facade, Encoder.View, EncodersOf;
  }

  class BaseSpace {
    var nodes: map<Uuid, Node>
    var mutedRoles: set<string>
    var roleGains: map<string, real>
    var roleAttenuations: map<string, real>
    var opChanges: Queue
    var nodeUuidBySlot: seq<Uuid>
    var openToChange: bool
    ghost var mostNodes: nat

    constructor ()
      ensures Valid() && View() == Space(map[], Rules({}, map[], map[])) && opChanges == map[]
      ensures Slotting() == EMPTY && !openToChange
    {
      nodes, mutedRoles, roleGains, roleAttenuations, opChanges := map[], {}, map[], map[], map[];
      nodeUuidBySlot, openToChange, mostNodes := [], false, 0;
    }

    function TheRules(): Rules
      reads this`mutedRoles, this`roleGains, this`roleAttenuations
    {
      Rules(mutedRoles, roleGains, roleAttenuations)
    }

    ghost function Encoders(): set<object>
      reads this`nodes
    {
      EncodersOf(nodes)
    }

    ghost function Facades(): map<Uuid, Own>
      reads this`nodes, Encoders()
    {
      FacadesOf(nodes)
    }

    ghost function View(): Space
      reads this, Encoders()
    {
      Space(Facades(), TheRules())
    }

    ghost predicate AllCurrent(rules: Rules)
      reads this`nodes, Encoders()
    {
      AllCurrentOf(nodes, rules)
    }

    /** Whatever has been assigned and refreshed: who is muted by role, and whose attenuation a role overrides. */
    lemma EveryEncoderFollowsTheRules(u: Uuid)
      requires Valid() && u in nodes
      ensures var e := nodes[u].encoder;
              && (e.spaceRoleMuted <==> exists r :: r in e.roles && r in mutedRoles)
              && (e.roleAttenuationOverride.None? <==> forall r :: r in e.roles ==> r !in roleAttenuations)
              && (forall r :: e.roleAttenuationOverride.Some? && r in e.roles && r in roleAttenuations ==>
                    e.roleAttenuationOverride.value <= roleAttenuations[r])
    {
      CurrentMeans(nodes[u].encoder.View(), TheRules());
      hide Current;
    }

    ghost predicate Distinct()
      reads this`nodes
    {
      DistinctNodes(nodes)
    }

    /** Every encoder's cached role effects are what its roles and the rules give from scratch. */
    ghost predicate Valid()
      reads this, Encoders()
    {
      Distinct() && AllCurrent(TheRules())
    }

    // ---------------------------------------------------------------- space-wide rules

    /** Recomputes the encoders that hold role, and only those. */
    method RefreshEncodersWithRole(role: string)
      requires Distinct()
      modifies Encoders()
      ensures forall u :: u in nodes ==>
                nodes[u].encoder.View() ==
                if role in old(nodes[u].encoder.roles) then Refreshed(old(nodes[u].encoder.View()), TheRules())
                else old(nodes[u].encoder.View())
    {
      hide Refreshed;
      var rest := nodes.Keys;
      while rest != {}
        invariant rest <= nodes.Keys
        invariant forall u :: u in nodes && u in rest ==> nodes[u].encoder.View() == old(nodes[u].encoder.View())
        invariant forall u :: u in nodes && u !in rest ==>
                    nodes[u].encoder.View() ==
                    if role in old(nodes[u].encoder.roles) then Refreshed(old(nodes[u].encoder.View()), TheRules())
                    else old(nodes[u].encoder.View())
      {
        var u :| u in rest;
        rest := rest - {u};
        assert nodes[u].encoder.roles == nodes[u].encoder.View().roles;
        if role in nodes[u].encoder.roles { RefreshEncoderRoleEffects(nodes[u].encoder, TheRules()); }
      }
    }

    /** After a change of the rules on one role, refreshing its holders makes every encoder current again. */
    method Refresh(role: string, ghost before: Rules)
      requires Distinct() && AllCurrent(before)
      requires before.muted - {role} == mutedRoles - {role}
      requires before.gains - {role} == roleGains - {role} && before.attenuations - {role} == roleAttenuations - {role}
      modifies Encoders()
      ensures Distinct() && AllCurrent(TheRules()) && Facades() == old(Facades())
    {
      hide Refreshed, Current;
      RefreshEncodersWithRole(role);
      forall u | u in nodes
        ensures Current(nodes[u].encoder.View(), TheRules()) && nodes[u].Facade() == old(nodes[u].Facade())
      {
        var e := old(nodes[u].encoder.View());
        RefreshKeepsOwn(e, TheRules());
        if role !in e.roles { OtherRolesDoNotMatter(e, before, TheRules(), role); }
      }
    }

    /** setRoleMuted and unsetRoleMuted: nothing to do when the flag is already there. */
    method AssignRoleMuted(role: string, muted: bool)
      requires Valid()
      modifies this`mutedRoles, Encoders()
      ensures Valid()
      ensures View() == old(View()).(rules := old(TheRules()).(muted := Toggle(old(mutedRoles), role, muted)))
    {
      hide AllCurrent, Facades, Distinct;
      ToggleFacts(mutedRoles, role, muted);
      if (role in mutedRoles) != muted {
        hide Toggle;
        ghost var before := TheRules();
        mutedRoles := Toggle(mutedRoles, role, muted);
        Refresh(role, before);
      }
    }

    /** setRoleGain and unsetRoleGain: nothing to do when the rule is already so. */
    method AssignRoleGain(role: string, value: Option<real>)
      requires Valid()
      modifies this`roleGains, Encoders()
      ensures Valid()
      ensures View() == old(View()).(rules := old(TheRules()).(gains := Assign(old(roleGains), role, value)))
    {
      hide AllCurrent, Facades, Distinct, Assign;
      AssignFacts(roleGains, role, value);
      if value != Rule(roleGains, role) {
        ghost var before := TheRules();
        roleGains := Assign(roleGains, role, value);
        Refresh(role, before);
      }
    }

    /** setRoleAttenuation and unsetRoleAttenuation. */
    method AssignRoleAttenuation(role: string, value: Option<real>)
      requires Valid()
      modifies this`roleAttenuations, Encoders()
      ensures Valid()
      ensures View() ==
              old(View()).(rules := old(TheRules()).(attenuations := Assign(old(roleAttenuations), role, value)))
    {
      hide AllCurrent, Facades, Distinct, Assign;
      AssignFacts(roleAttenuations, role, value);
      if value != Rule(roleAttenuations, role) {
        ghost var before := TheRules();
        roleAttenuations := Assign(roleAttenuations, role, value);
        Refresh(role, before);
      }
    }

    // ---------------------------------------------------------------- ops

    method MutateNode(x: Cell, op: Op)
      requires Valid() && !IsRule(x) && (Numeric(x) && !op.tombstone ==> op.value.Some?)
      modifies Encoders()
      ensures Valid()
      ensures View() ==
              if x.id in nodes then old(View()).(nodes := old(Facades())[x.id := WriteOwn(old(Facades())[x.id], x, op)])
                        else old(View())
    {
      hide Current, WriteOwn, Node.Facade, Encoder.View, Numeric;
      if x.id in nodes {
        MutateEncoder(nodes[x.id], x, op, TheRules());
        forall u | u in nodes && u != x.id
          ensures nodes[u].Facade() == old(nodes[u].Facade()) && nodes[u].encoder.View() == old(nodes[u].encoder.View())
        {
          assert nodes[u].encoder != nodes[x.id].encoder;
        }
      }
    }

    /** applyEntityOp: parse the key, decode the value where one is needed, mutate the node if it is there. */
    method ApplyEntityOp(c: Codec, op: Op)
      requires Valid() && op.topic == "entity"
      modifies Encoders()
      ensures Valid() && View() == Apply(c, old(View()), op)
    {
      hide AllCurrent, Distinct, WriteOwn, EntityCell, Node.Facade;
      var (head, rest) := Cut(op.key);
      var id := c.parse(head);
      if id.None? { return; }
      var x := EntityCell(c, id.value, rest);
      if x.None? { return; }
      EntityCellIsNoRule(c, id.value, rest);
      if !op.tombstone && Numeric(x.value) && op.value.None? { return; }
      MutateNode(x.value, op);
    }

    /** applySpaceOp: the three role rules. */
    method ApplySpaceOp(c: Codec, op: Op)
      requires Valid() && op.topic == "space"
      modifies this`mutedRoles, this`roleGains, this`roleAttenuations, Encoders()
      ensures Valid() && View() == Apply(c, old(View()), op)
    {
      hide AllCurrent, Distinct, Facades, SpaceCell;
      var x := SpaceCell(op.key);
      if x.None? { return; }
      SpaceCellIsRule(op.key);
      if !op.tombstone && Numeric(x.value) && op.value.None? { return; }
      match x.value
      case RoleMuted(role) => AssignRoleMuted(role, !op.tombstone);
      case RoleGain(role) => AssignRoleGain(role, if op.tombstone then None else op.value);
      case RoleAttenuation(role) => AssignRoleAttenuation(role, if op.tombstone then None else op.value);
    }

    // ---------------------------------------------------------------- nodes and slots

    ghost function Slotting(): Table
      reads this`nodes, this`nodeUuidBySlot, this`mostNodes
    {
      Table(nodeUuidBySlot, SlotIndexes(), mostNodes)
    }

    ghost function SlotIndexes(): map<Uuid, nat>
      reads this`nodes
    {
      IndexesOf(nodes)
    }

    /** The first slot that looks empty, or a new one at the end. */
    method AddNodeToSlots(name: Uuid) returns (slot: nat)
      modifies this`nodeUuidBySlot
      ensures slot == FirstFree(old(nodeUuidBySlot)) && nodeUuidBySlot == Occupy(old(nodeUuidBySlot), name)
    {
      for i := 0 to |nodeUuidBySlot|
        invariant nodeUuidBySlot == old(nodeUuidBySlot) && forall j :: 0 <= j < i ==> nodeUuidBySlot[j] != NIL
      {
        if nodeUuidBySlot[i] == NIL {
          nodeUuidBySlot := nodeUuidBySlot[i := name];
          return i;
        }
      }
      nodeUuidBySlot := nodeUuidBySlot + [name];
      slot := |nodeUuidBySlot| - 1;
    }

    method RemoveNodeFromSlots(slot: nat)
      requires slot < |nodeUuidBySlot|
      modifies this`nodeUuidBySlot
      ensures nodeUuidBySlot == Vacate(old(nodeUuidBySlot), slot)
    {
      nodeUuidBySlot := nodeUuidBySlot[slot := NIL];
    }

    method DoAddNode(u: Uuid, gain: real, attenuation: real) returns (r: Result<Node, ChangeError>)
      requires Valid()
      modifies this`nodes, this`nodeUuidBySlot, this`mostNodes
      ensures Valid()
      ensures r.Err? <==> !openToChange || u in old(nodes)
      ensures r.Err? ==> nodes == old(nodes) && Slotting() == old(Slotting())
      ensures r.Ok? ==> Slotting() == Step(old(Slotting()), Add(u))
      ensures r.Ok? ==>
                var own := Own(gain, attenuation, gain, attenuation, false, {}, {}, {}, {});
                View() == old(View()).(nodes := old(Facades())[u := own])
    {
      hide AllCurrent, Distinct, Facades, Current;
      if !openToChange { return Err(CubeClosed); }
      if u in nodes { return Err(Duplicate); }
      ghost var before := Slotting();
      assert SlotIndexes().Keys == nodes.Keys;
      mostNodes := Max(mostNodes, |SlotIndexes()| + 1);
      var slot := AddNodeToSlots(u);
      assert this !in Encoders() && Encoders() == old(Encoders());
      var node := new Node(u, gain, attenuation, slot);
      Install(node);
      hide SlotIndexes, FirstFree, Occupy;
      assert Slotting() == Step(before, Add(u));
      r := Ok(node);
    }

    method Install(node: Node)
      requires Valid() && node.uuid !in nodes && Current(node.encoder.View(), TheRules()) && node.encoder !in Encoders()
      modifies this`nodes
      ensures Valid() && nodes == old(nodes)[node.uuid := node]
      ensures Facades() == old(Facades())[node.uuid := node.Facade()]
      ensures SlotIndexes() == old(SlotIndexes())[node.uuid := node.slotIndex]
    {
      hide Current, Node.Facade, Encoder.View, FacadesOf, AllCurrentOf, DistinctNodes, IndexesOf;
      ghost var more := nodes[node.uuid := node];
      WithNode(nodes, node, TheRules());
      assert this !in EncodersOf(more);
      hide EncodersOf;
      nodes := nodes[node.uuid := node];
    }

    method Uninstall(u: Uuid)
      requires Valid() && u in nodes
      modifies this`nodes
      ensures Valid() && nodes == old(nodes) - {u}
      ensures Facades() == old(Facades()) - {u} && SlotIndexes() == old(SlotIndexes()) - {u}
    {
      hide Current, Node.Facade, Encoder.View, FacadesOf, AllCurrentOf, DistinctNodes, IndexesOf;
      ghost var less := nodes - {u};
      WithoutNode(nodes, u, TheRules());
      assert this !in EncodersOf(less);
      hide EncodersOf;
      nodes := nodes - {u};
    }

    method DoRemoveNode(u: Uuid) returns (r: Result<Node, ChangeError>)
      requires Valid() && (u in nodes ==> nodes[u].slotIndex < |nodeUuidBySlot|)
      modifies this`nodes, this`nodeUuidBySlot
      ensures Valid()
      ensures r.Err? <==> !openToChange || u !in old(nodes)
      ensures r.Err? ==> nodes == old(nodes) && Slotting() == old(Slotting())
      ensures r.Ok? ==>
                Slotting() == Step(old(Slotting()), Remove(u)) && View() == old(View()).(nodes := old(Facades()) - {u})
    {
      hide AllCurrent, Distinct, Facades, Current;
      if !openToChange { return Err(CubeClosed); }
      if u !in nodes { return Err(Missing); }
      var node := nodes[u];
      Uninstall(u);
      label gone:
      RemoveNodeFromSlots(node.slotIndex);
      assert this !in Encoders() && Encoders() == old@gone(Encoders());
      r := Ok(node);
    }

    // ---------------------------------------------------------------- the op queue

    method EnqueueOp(op: Op)
      modifies this`opChanges
      ensures opChanges == Enqueue(old(opChanges), op)
    {
      if KeyOf(op) in opChanges && op.opId < opChanges[KeyOf(op)].opId { return; }
      opChanges := opChanges[KeyOf(op) := op];
    }

    method ApplyQueued(c: Codec, op: Op)
      requires Valid()
      modifies this`mutedRoles, this`roleGains, this`roleAttenuations, Encoders()
      ensures Valid() && View() == Apply(c, old(View()), op)
    {
      hide AllCurrent, Distinct, Facades, Apply;
      match op.topic
      case "entity" => ApplyEntityOp(c, op);
      case "space" => ApplySpaceOp(c, op);
      case _ => OtherTopicsDoNothing(c, View(), op);
    }

    /** Drains the queue in whatever order the keys come out, one op per key. */
    method ProcessOpChanges(c: Codec) returns (ghost order: seq<Key>)
      requires Valid() && WellKeyed(opChanges)
      modifies this`opChanges, this`mutedRoles, this`roleGains, this`roleAttenuations, Encoders()
      ensures Valid() && opChanges == map[]
      ensures IsDrainOrder(old(opChanges), order)
      ensures View() == ApplyAll(c, old(View()), Drained(old(opChanges), order))
    {
      hide AllCurrent, Distinct, Facades, Apply;
      var drained := opChanges;
      opChanges := map[];
      order := [];
      var rest := drained.Keys;
      while rest != {}
        invariant Valid() && opChanges == map[] && rest <= drained.Keys
        invariant forall k :: k in order <==> k in drained.Keys - rest
        invariant forall i, j :: 0 <= i < j < |order| ==> order[i] != order[j]
        invariant View() == ApplyAll(c, old(View()), Drained(drained, order))
      {
        var k :| k in rest;
        rest := rest - {k};
        ghost var more := order + [k];
        OneMore(drained, order, k);
        ApplyQueued(c, drained[k]);
        order := more;
      }
    }
  }

  datatype ChangeError = CubeClosed | Duplicate | Missing

  lemma EntityCellIsNoRule(c: Codec, id: Uuid, rest: string)
    ensures EntityCell(c, id, rest).Some? ==>
              !IsRule(EntityCell(c, id, rest).value) && EntityCell(c, id, rest).value.id == id
  {
  }

  lemma SpaceCellIsRule(key: string)
    ensures SpaceCell(key).Some? ==> IsRule(SpaceCell(key).value)
  {
  }

  lemma OneMore(q: Queue, order: seq<Key>, k: Key)
    requires (forall x :: x in order ==> x in q) && k in q && k !in order
    requires forall i, j :: 0 <= i < j < |order| ==> order[i] != order[j]
    ensures var more := order + [k];
            && Drained(q, more)[..|order|] == Drained(q, order) && Drained(q, more)[|order|] == q[k]
            && (forall x :: x in more <==> x in order || x == k)
            && forall i, j :: 0 <= i < j < |more| ==> more[i] != more[j]
  {
  }

  lemma OtherTopicsDoNothing(c: Codec, s: Space, op: Op)
    requires op.topic != "entity" && op.topic != "space"
    ensures Apply(c, s, op) == s
  {
  }

  /** The per-leaf mutators on one node. */
  method MutateEncoder(n: Node, x: Cell, op: Op, rules: Rules)
    requires !IsRule(x) && (Numeric(x) && !op.tombstone ==> op.value.Some?)
    requires Current(n.encoder.View(), rules)
    modifies n.encoder
    ensures n.Facade() == WriteOwn(old(n.Facade()), x, op) && Current(n.encoder.View(), rules)
  {
    hide Refreshed, Current;
    var e := n.encoder;
    ghost var was := e.View();
    match x
    case Gain(_) =>
      e.SetGain(if op.tombstone then n.cfgGain else op.value.value);
      assert e.View() == was.(gain := e.gain, factor := NonNegative(e.gain * was.multiplier));
      GainKeepsCurrent(was, rules, e.gain);
    case Attenuation(_) =>
      e.SetAttenuation(if op.tombstone then n.cfgAttenuation else op.value.value);
      AttenuationKeepsCurrent(was, rules, e.attenuation);
    case Role(_, role) => SetRole(e, role, !op.tombstone, rules);
    case Muted(_) =>
      e.spaceMuted := !op.tombstone;
      FlagsKeepCurrent(was, rules, e.View());
    case MuteRole(_, role) =>
      e.muteRoles := Toggle(e.muteRoles, role, !op.tombstone);
      FlagsKeepCurrent(was, rules, e.View());
    case Mute(_, other) =>
      e.mutes := Toggle(e.mutes, other, !op.tombstone);
      FlagsKeepCurrent(was, rules, e.View());
    case Solo(_, other) =>
      e.solos := Toggle(e.solos, other, !op.tombstone);
      FlagsKeepCurrent(was, rules, e.View());
  }

  /** setNodeRole and unsetNodeRole: a changed membership brings the role's effects in or out. */
  method SetRole(e: Encoder, role: string, held: bool, rules: Rules)
    modifies e
    ensures Current(e.View(), rules) && e.roles == Toggle(old(e.roles), role, held)
    ensures var a, b := old(e.View()), e.View();
            && a.gain == b.gain && a.attenuation == b.attenuation && a.muted == b.muted
            && a.muteRoles == b.muteRoles && a.mutes == b.mutes && a.solos == b.solos
  {
    e.roles := Toggle(e.roles, role, held);
    RefreshKeepsOwn(e.View(), rules);
    hide Refreshed, Current, Toggle;
    RefreshEncoderRoleEffects(e, rules);
  }

  lemma GainKeepsCurrent(e: Enc, rules: Rules, gain: real)
    requires Current(e, rules)
    ensures Current(e.(gain := gain, factor := NonNegative(gain * e.multiplier)), rules)
  {
    hide Least;
  }

  lemma AttenuationKeepsCurrent(e: Enc, rules: Rules, attenuation: real)
    requires Current(e, rules)
    ensures Current(e.(attenuation := attenuation,
                       exponent := (if e.roleAttenuation.Some? then e.roleAttenuation.value else attenuation) / 2.0),
                           rules)
  {
    hide Least;
  }

  lemma FlagsKeepCurrent(e: Enc, rules: Rules, f: Enc)
    requires Current(e, rules)
    requires f == e.(muted := f.muted, muteRoles := f.muteRoles, mutes := f.mutes, solos := f.solos)
    ensures Current(f, rules)
  {
    hide Least;
  }

  function Rule(m: map<string, real>, role: string): Option<real> { if role in m then Some(m[role]) else None }

  lemma ToggleFacts(s: set<string>, role: string, on: bool)
    ensures s - {role} == Toggle(s, role, on) - {role}
    ensures (role in s) == on ==> Toggle(s, role, on) == s
  {
  }

  lemma AssignFacts(m: map<string, real>, role: string, value: Option<real>)
    ensures m - {role} == Assign(m, role, value) - {role}
    ensures value == Rule(m, role) ==> Assign(m, role, value) == m
  {
  }
}
