/**
 * From a dispatched command to the space: which cell it writes, what it leaves there, and that it leaves all else
 * alone.
 */
module CommandEffects {
  import opened Common
  import opened Scope
  import C = Commands
  import opened SpaceModel

  /** The dispatched op as the mixer gets it back: only an amount decodes as a number. */
  function AsSpaceOp(op: C.Op, opId: nat): Op {
    Op(op.topic, op.key, opId, op.tombstone, match op.value { case Amount(v) => Some(v) case _ => None })
  }

  /** t is s with the one cell read as v. */
  ghost predicate OnlyCell(s: Space, t: Space, x: Cell, v: Val) {
    SameFrame(s, t) && Read(t, x) == v && forall y :: y != x ==> Read(t, y) == Read(s, y)
  }

  lemma WritesItsCell(c: Codec, s: Space, op: Op, x: Cell)
    requires ActsOn(c, op, x)
    ensures OnlyCell(s, Apply(c, s, op), x, Intended(s, x, op))
  {
    hide Apply, Read, Intended, CellOf, SameFrame, Acts;
    ApplyReads(c, s, op, x);
    forall y | y != x
      ensures Read(Apply(c, s, op), y) == Read(s, y)
    {
      ApplyReads(c, s, op, y);
    }
  }

  // ------------------------------------------------------------------ keys and their cells

  lemma FieldCell(c: Codec, u: Uuid, field: string)
    requires Canonical(c) && '.' !in field
    ensures CellOf(c, "entity", FieldKey(c, u, field)) == EntityCell(c, u, field)
  {
    assert c.parse(c.show(u)) == Some(u);
    CutJoined(c.show(u), field);
    hide EntityCell;
  }

  lemma NestedCell(c: Codec, u: Uuid, field: string, rest: string)
    requires Canonical(c)
    ensures CellOf(c, "entity", NestedKey(c, u, field, rest)) == EntityCell(c, u, field + "." + rest)
  {
    assert c.parse(c.show(u)) == Some(u);
    assert NestedKey(c, u, field, rest) == c.show(u) + "." + (field + "." + rest);
    CutJoined(c.show(u), field + "." + rest);
    hide EntityCell;
  }

  lemma EntityFields(c: Codec, u: Uuid)
    requires Canonical(c)
    ensures CellOf(c, "entity", FieldKey(c, u, "muted")) == Some(Muted(u))
    ensures CellOf(c, "entity", FieldKey(c, u, "gain")) == Some(Gain(u))
    ensures CellOf(c, "entity", FieldKey(c, u, "attenuation")) == Some(Attenuation(u))
    ensures CellOf(c, "entity", FieldKey(c, u, "kicked")) == None
  {
    hide CellOf, FieldKey;
    FieldCell(c, u, "muted");
    FieldCell(c, u, "gain");
    FieldCell(c, u, "attenuation");
    FieldCell(c, u, "kicked");
  }

  lemma Split(head: string, rest: string)
    ensures head <= head + rest && (head + rest)[|head|..] == rest && (rest != "" ==> head + rest != head)
  {
  }

  lemma EntityLists(c: Codec, u: Uuid, other: Uuid, role: string)
    requires Canonical(c) && role != ""
    ensures CellOf(c, "entity", NestedKey(c, u, "mutes", c.show(other))) == Some(Mute(u, other))
    ensures CellOf(c, "entity", NestedKey(c, u, "solos", c.show(other))) == Some(Solo(u, other))
    ensures CellOf(c, "entity", NestedKey(c, u, "mute-roles", role)) == Some(MuteRole(u, role))
    ensures CellOf(c, "entity", NestedKey(c, u, "roles", role)) == Some(Role(u, role))
  {
    assert c.parse(c.show(other)) == Some(other);
    hide CellOf, NestedKey, Canonical;
    NestedCell(c, u, "mutes", c.show(other));
    NestedCell(c, u, "solos", c.show(other));
    NestedCell(c, u, "mute-roles", role);
    NestedCell(c, u, "roles", role);
    ListCells(c, u, other, role);
  }

  lemma ListCells(c: Codec, u: Uuid, other: Uuid, role: string)
    requires c.parse(c.show(other)) == Some(other) && role != ""
    ensures EntityCell(c, u, "mutes" + "." + c.show(other)) == Some(Mute(u, other))
    ensures EntityCell(c, u, "solos" + "." + c.show(other)) == Some(Solo(u, other))
    ensures EntityCell(c, u, "mute-roles" + "." + role) == Some(MuteRole(u, role))
    ensures EntityCell(c, u, "roles" + "." + role) == Some(Role(u, role))
  {
    assert "mutes" + "." == "mutes." && "solos" + "." == "solos." && "mute-roles" + "." == "mute-roles."
           && "roles" + "." == "roles.";
    Split("mutes.", c.show(other));
    Split("solos.", c.show(other));
    Split("mute-roles.", role);
    Split("roles.", role);
    assert ("mutes." + c.show(other))[0] == 'm' && ("solos." + c.show(other))[0] == 's'
           && ("mute-roles." + role)[0] == 'm';
    assert ("mute-roles." + role)[4] == '-';
  }

  lemma RuleCells(role: string)
    requires role != ""
    ensures SpaceCell("roles-muted." + role) == Some(RoleMuted(role))
    ensures SpaceCell("roles-gain." + role) == Some(RoleGain(role))
    ensures SpaceCell("roles-attenuation." + role) == Some(RoleAttenuation(role))
    ensures SpaceCell("roles-kicked." + role) == None
  {
    Split("roles-muted.", role);
    Split("roles-gain.", role);
    Split("roles-attenuation.", role);
    assert ("roles-muted." + role)[6] == 'm' && ("roles-gain." + role)[6] == 'g';
    assert ("roles-attenuation." + role)[6] == 'a' && ("roles-kicked." + role)[6] == 'k';
  }

  // ------------------------------------------------------------------ what each command does

  lemma OpOf(c: Codec, auth: Option<C.Permissions>, cmd: string, a: C.Args, my: Uuid, roles: seq<string>, now: int)
    requires C.Dispatch(c, auth, cmd, Some(a), my, roles, now).Ok?
    ensures C.Build(c, cmd, Some(a), my, now) == Some(C.Dispatch(c, auth, cmd, Some(a), my, roles, now).value)
    ensures cmd in C.NAMES
  {
    hide C.Build;
  }

  /** The commands on one entity: mute and unmute, gain and attenuation; a kick is no business of the mixer. */
  lemma SpaceEntityCommands(c: Codec, auth: Option<C.Permissions>, cmd: string, a: C.Args, my: Uuid, roles: seq<string>,
                            now: int, s: Space, opId: nat)
    requires Canonical(c) && C.Dispatch(c, auth, cmd, Some(a), my, roles, now).Ok? && a.entityId in s.nodes
    ensures var op := C.Dispatch(c, auth, cmd, Some(a), my, roles, now).value;
            var t, u := Apply(c, s, AsSpaceOp(op, opId)), a.entityId;
            && (cmd == "space.entity.mute" ==> OnlyCell(s, t, Muted(u), Flag(true)))
            && (cmd == "space.entity.unmute" ==> OnlyCell(s, t, Muted(u), Flag(false)))
            && (cmd == "space.entity.set_gain" ==> OnlyCell(s, t, Gain(u), Number(a.gain)) && 0.0 <= a.gain <= 3.0)
            && (cmd == "space.entity.set_attenuation" ==>
                  OnlyCell(s, t, Attenuation(u), Number(a.attenuation)) && 0.0 <= a.attenuation <= 3.0)
            && (cmd == "space.entity.kick" || cmd == "space.entity.unkick" ==> t == s)
  {
    OpOf(c, auth, cmd, a, my, roles, now);
    var op := C.Dispatch(c, auth, cmd, Some(a), my, roles, now).value;
    EntityFields(c, a.entityId);
    hide CellOf, FieldKey, C.Dispatch, OnlyCell, Canonical;
    var x := AsSpaceOp(op, opId);
    if cmd == "space.entity.mute" || cmd == "space.entity.unmute" {
      WritesItsCell(c, s, x, Muted(a.entityId));
    } else if cmd == "space.entity.set_gain" {
      WritesItsCell(c, s, x, Gain(a.entityId));
    } else if cmd == "space.entity.set_attenuation" {
      WritesItsCell(c, s, x, Attenuation(a.entityId));
    }
  }

  /** The commands on a role: its rule is set or gone; a kick is no business of the mixer. */
  lemma SpaceRoleCommands(c: Codec, auth: Option<C.Permissions>, cmd: string, a: C.Args, my: Uuid, roles: seq<string>,
                          now: int, s: Space, opId: nat)
    requires C.Dispatch(c, auth, cmd, Some(a), my, roles, now).Ok?
    ensures var op := C.Dispatch(c, auth, cmd, Some(a), my, roles, now).value;
            var t, r := Apply(c, s, AsSpaceOp(op, opId)), a.role;
            && (cmd == "space.role.mute" ==> OnlyCell(s, t, RoleMuted(r), Flag(true)))
            && (cmd == "space.role.unmute" ==> OnlyCell(s, t, RoleMuted(r), Flag(false)))
            && (cmd == "space.role.set_gain" ==> OnlyCell(s, t, RoleGain(r), Number(a.gain)) && 0.0 <= a.gain <= 3.0)
            && (cmd == "space.role.unset_gain" ==> OnlyCell(s, t, RoleGain(r), NoNumber))
            && (cmd == "space.role.set_attenuation" ==>
                  OnlyCell(s, t, RoleAttenuation(r), Number(a.attenuation)) && 0.0 <= a.attenuation <= 3.0)
            && (cmd == "space.role.unset_attenuation" ==> OnlyCell(s, t, RoleAttenuation(r), NoNumber))
            && (cmd == "space.role.kick" || cmd == "space.role.unkick" ==> t == s)
  {
    var op := C.Dispatch(c, auth, cmd, Some(a), my, roles, now).value;
    hide C.Dispatch, OnlyCell, SpaceCell, CellOf, Apply, Read;
    if cmd in C.SPACE_ROLE {
      RoleOps(c, auth, cmd, a, my, roles, now);
      RuleCells(a.role);
    }
    if cmd == "space.role.mute" || cmd == "space.role.unmute" {
      RuleWrites(c, s, AsSpaceOp(op, opId), "roles-muted.", a.role, RoleMuted(a.role));
    } else if cmd == "space.role.set_gain" || cmd == "space.role.unset_gain" {
      RuleWrites(c, s, AsSpaceOp(op, opId), "roles-gain.", a.role, RoleGain(a.role));
    } else if cmd == "space.role.set_attenuation" || cmd == "space.role.unset_attenuation" {
      RuleWrites(c, s, AsSpaceOp(op, opId), "roles-attenuation.", a.role, RoleAttenuation(a.role));
    } else if cmd == "space.role.kick" || cmd == "space.role.unkick" {
      KickedRoleIsNoCell(c, s, AsSpaceOp(op, opId), a.role);
    }
  }

  lemma RuleWrites(c: Codec, s: Space, op: Op, head: string, role: string, x: Cell)
    requires op.topic == "space" && op.key == head + role && SpaceCell(head + role) == Some(x) && IsRule(x)
    requires Numeric(x) && !op.tombstone ==> op.value.Some?
    ensures OnlyCell(s, Apply(c, s, op), x, if !Numeric(x) then Flag(!op.tombstone)
                                            else if op.tombstone then NoNumber else Number(op.value.value))
  {
    hide SpaceCell, OnlyCell;
    WritesItsCell(c, s, op, x);
  }

  lemma KickedRoleIsNoCell(c: Codec, s: Space, op: Op, role: string)
    requires op.topic == "space" && op.key == "roles-kicked." + role && SpaceCell(op.key) == None
    ensures Apply(c, s, op) == s
  {
    hide SpaceCell;
  }

  /** What Dispatch builds for a command on a role. */
  lemma RoleOps(c: Codec, auth: Option<C.Permissions>, cmd: string, a: C.Args, my: Uuid, roles: seq<string>, now: int)
    requires C.Dispatch(c, auth, cmd, Some(a), my, roles, now).Ok? && cmd in C.SPACE_ROLE
    ensures var op := C.Dispatch(c, auth, cmd, Some(a), my, roles, now).value;
            && a.role != "" && op.topic == "space"
            && (cmd == "space.role.mute" ==> op.key == "roles-muted." + a.role && !op.tombstone)
            && (cmd == "space.role.unmute" ==> op.key == "roles-muted." + a.role && op.tombstone)
            && (cmd == "space.role.set_gain" ==>
                  op.key == "roles-gain." + a.role && !op.tombstone && op.value == C.Amount(a.gain)
                      && C.InRange(a.gain))
            && (cmd == "space.role.unset_gain" ==> op.key == "roles-gain." + a.role && op.tombstone)
            && (cmd == "space.role.set_attenuation" ==>
                  op.key == "roles-attenuation." + a.role && !op.tombstone && op.value == C.Amount(a.attenuation)
                  && C.InRange(a.attenuation))
            && (cmd == "space.role.unset_attenuation" ==> op.key == "roles-attenuation." + a.role && op.tombstone)
            && (cmd == "space.role.kick" || cmd == "space.role.unkick" ==> op.key == "roles-kicked." + a.role)
  {
    OpOf(c, auth, cmd, a, my, roles, now);
    hide C.Dispatch;
  }

  /** The personal commands write the issuer's own cells, whatever the arguments say about anyone else. */
  lemma PersonalEntityCommands(c: Codec, auth: Option<C.Permissions>, cmd: string, a: C.Args, my: Uuid,
                               roles: seq<string>, now: int, s: Space, opId: nat)
    requires Canonical(c) && C.Dispatch(c, auth, cmd, Some(a), my, roles, now).Ok? && my in s.nodes
    requires cmd in C.PERSONAL_ENTITY
    ensures var op := C.Dispatch(c, auth, cmd, Some(a), my, roles, now).value;
            var t := Apply(c, s, AsSpaceOp(op, opId));
            && (cmd == "personal.entity.mute" ==> OnlyCell(s, t, Mute(my, a.entityId), Flag(true)))
            && (cmd == "personal.entity.unmute" ==> OnlyCell(s, t, Mute(my, a.entityId), Flag(false)))
            && (cmd == "personal.entity.solo" ==> OnlyCell(s, t, Solo(my, a.entityId), Flag(true)))
            && (cmd == "personal.entity.unsolo" ==> OnlyCell(s, t, Solo(my, a.entityId), Flag(false)))
  {
    var op := C.Dispatch(c, auth, cmd, Some(a), my, roles, now).value;
    hide CellOf, NestedKey, C.Dispatch, OnlyCell, Canonical, Apply, Read;
    PersonalEntityOps(c, auth, cmd, a, my, roles, now);
    EntityLists(c, my, a.entityId, "role");
    if cmd == "personal.entity.mute" || cmd == "personal.entity.unmute" {
      ListWrites(c, s, AsSpaceOp(op, opId), Mute(my, a.entityId));
    } else {
      ListWrites(c, s, AsSpaceOp(op, opId), Solo(my, a.entityId));
    }
  }

  lemma PersonalRoleCommands(c: Codec, auth: Option<C.Permissions>, cmd: string, a: C.Args, my: Uuid,
                             roles: seq<string>, now: int, s: Space, opId: nat)
    requires Canonical(c) && C.Dispatch(c, auth, cmd, Some(a), my, roles, now).Ok? && my in s.nodes
    requires cmd in C.PERSONAL_ROLE
    ensures var op := C.Dispatch(c, auth, cmd, Some(a), my, roles, now).value;
            var t := Apply(c, s, AsSpaceOp(op, opId));
            && (cmd == "personal.role.mute" ==> OnlyCell(s, t, MuteRole(my, a.role), Flag(true)))
            && (cmd == "personal.role.unmute" ==> OnlyCell(s, t, MuteRole(my, a.role), Flag(false)))
  {
    var op := C.Dispatch(c, auth, cmd, Some(a), my, roles, now).value;
    hide CellOf, NestedKey, C.Dispatch, OnlyCell, Canonical, Apply, Read;
    PersonalRoleOps(c, auth, cmd, a, my, roles, now);
    EntityLists(c, my, my, a.role);
    ListWrites(c, s, AsSpaceOp(op, opId), MuteRole(my, a.role));
  }

  lemma ListWrites(c: Codec, s: Space, op: Op, x: Cell)
    requires CellOf(c, op.topic, op.key) == Some(x) && !Numeric(x) && !IsRule(x) && x.id in s.nodes && !x.Muted?
    ensures OnlyCell(s, Apply(c, s, op), x, Flag(!op.tombstone))
  {
    hide CellOf, OnlyCell;
    WritesItsCell(c, s, op, x);
  }

  lemma PersonalEntityOps(c: Codec, auth: Option<C.Permissions>, cmd: string, a: C.Args, my: Uuid, roles: seq<string>,
                          now: int)
    requires C.Dispatch(c, auth, cmd, Some(a), my, roles, now).Ok? && cmd in C.PERSONAL_ENTITY
    ensures var op := C.Dispatch(c, auth, cmd, Some(a), my, roles, now).value;
            var mutes, solos := NestedKey(c, my, "mutes", c.show(a.entityId)),
                NestedKey(c, my, "solos", c.show(a.entityId));
            && op.topic == "entity" && mutes != solos
            && (cmd == "personal.entity.mute" ==> op.key == mutes && !op.tombstone)
            && (cmd == "personal.entity.unmute" ==> op.key == mutes && op.tombstone)
            && (cmd == "personal.entity.solo" ==> op.key == solos && !op.tombstone)
            && (cmd == "personal.entity.unsolo" ==> op.key == solos && op.tombstone)
  {
    OpOf(c, auth, cmd, a, my, roles, now);
    ListKeysDiffer(c, my, c.show(a.entityId));
    hide C.Dispatch, NestedKey;
  }

  lemma ListKeysDiffer(c: Codec, u: Uuid, rest: string)
    ensures NestedKey(c, u, "mutes", rest) != NestedKey(c, u, "solos", rest)
  {
    var n := |c.show(u)| + 1;
    assert NestedKey(c, u, "mutes", rest)[n] == 'm' && NestedKey(c, u, "solos", rest)[n] == 's';
  }

  lemma PersonalRoleOps(c: Codec, auth: Option<C.Permissions>, cmd: string, a: C.Args, my: Uuid, roles: seq<string>,
                        now: int)
    requires C.Dispatch(c, auth, cmd, Some(a), my, roles, now).Ok? && cmd in C.PERSONAL_ROLE
    ensures var op := C.Dispatch(c, auth, cmd, Some(a), my, roles, now).value;
            && a.role != "" && op.topic == "entity" && op.key == NestedKey(c, my, "mute-roles", a.role)
            && (cmd == "personal.role.mute" ==> !op.tombstone) && (cmd == "personal.role.unmute" ==> op.tombstone)
  {
    OpOf(c, auth, cmd, a, my, roles, now);
    hide C.Dispatch, NestedKey;
  }

  /** Kicking an entity: the key names it, the value is the deadline in milliseconds, or 0 for none. */
  lemma EntityKickCommands(c: Codec, auth: Option<C.Permissions>, cmd: string, a: C.Args, my: Uuid, roles: seq<string>,
                           now: int)
    requires C.Dispatch(c, auth, cmd, Some(a), my, roles, now).Ok?
    requires cmd == "space.entity.kick" || cmd == "space.entity.unkick"
    ensures var op := C.Dispatch(c, auth, cmd, Some(a), my, roles, now).value;
            && op.topic == "entity" && op.key == c.show(a.entityId) + "." + "kicked"
            && (op.tombstone <==> cmd == "space.entity.unkick")
            && (cmd == "space.entity.kick" ==>
                  a.mins >= 0 && op.value == C.Until(if a.mins == 0 then 0 else now + a.mins * 60 * 1000))
  {
    OpOf(c, auth, cmd, a, my, roles, now);
    hide C.Dispatch;
  }

  /** The same for a role. */
  lemma RoleKickCommands(c: Codec, auth: Option<C.Permissions>, cmd: string, a: C.Args, my: Uuid, roles: seq<string>,
                         now: int)
    requires C.Dispatch(c, auth, cmd, Some(a), my, roles, now).Ok?
    requires cmd == "space.role.kick" || cmd == "space.role.unkick"
    ensures var op := C.Dispatch(c, auth, cmd, Some(a), my, roles, now).value;
            && op.topic == "space" && op.key == "roles-kicked." + a.role && a.role != ""
            && (op.tombstone <==> cmd == "space.role.unkick")
            && (cmd == "space.role.kick" ==>
                  a.mins >= 0 && op.value == C.Until(if a.mins == 0 then 0 else now + a.mins * 60 * 1000))
  {
    OpOf(c, auth, cmd, a, my, roles, now);
    hide C.Dispatch;
  }

  // ------------------------------------------------------------------ ops that come otherwise

  /** A role a client announces is held from then on, and no longer once its key is tombstoned. */
  lemma AnnouncedRolesAreHeld(c: Codec, s: Space, u: Uuid, role: string, opId: nat, tombstone: bool,
                              value: Option<real>)
    requires Canonical(c) && role != "" && u in s.nodes
    ensures var t := Apply(c, s, Op("entity", NestedKey(c, u, "roles", role), opId, tombstone, value));
            OnlyCell(s, t, Role(u, role), Flag(!tombstone))
  {
    EntityLists(c, u, u, role);
    hide CellOf, NestedKey, OnlyCell, Canonical;
    WritesItsCell(c, s, Op("entity", NestedKey(c, u, "roles", role), opId, tombstone, value), Role(u, role));
  }

  /** A tombstoned gain or attenuation goes back to what the node was configured with. */
  lemma TombstonesRestore(c: Codec, s: Space, u: Uuid, opId: nat, value: Option<real>)
    requires Canonical(c) && u in s.nodes
    ensures OnlyCell(s, Apply(c, s, Op("entity", FieldKey(c, u, "gain"), opId, true, value)), Gain(u),
                     Number(s.nodes[u].cfgGain))
    ensures OnlyCell(s, Apply(c, s, Op("entity", FieldKey(c, u, "attenuation"), opId, true, value)), Attenuation(u),
                     Number(s.nodes[u].cfgAttenuation))
  {
    EntityFields(c, u);
    hide CellOf, FieldKey, OnlyCell, Canonical;
    WritesItsCell(c, s, Op("entity", FieldKey(c, u, "gain"), opId, true, value), Gain(u));
    WritesItsCell(c, s, Op("entity", FieldKey(c, u, "attenuation"), opId, true, value), Attenuation(u));
  }

  /** A gain or attenuation without a number is ignored. */
  lemma MalformedIsIgnored(c: Codec, s: Space, u: Uuid, opId: nat)
    requires Canonical(c)
    ensures Apply(c, s, Op("entity", FieldKey(c, u, "gain"), opId, false, None)) == s
    ensures Apply(c, s, Op("entity", FieldKey(c, u, "attenuation"), opId, false, None)) == s
  {
    EntityFields(c, u);
    hide CellOf, FieldKey, Canonical;
  }

  /** What the cells read are the node's fields and the space's rules. */
  lemma CellsAreTheFields(s: Space, u: Uuid, other: Uuid, role: string)
    requires u in s.nodes
    ensures Read(s, Gain(u)) == Number(s.nodes[u].gain) && Read(s, Attenuation(u)) == Number(s.nodes[u].attenuation)
    ensures Read(s, Muted(u)) == Flag(s.nodes[u].muted)
    ensures (Read(s, Role(u, role)) == Flag(true) <==> role in s.nodes[u].roles)
            && (Read(s, MuteRole(u, role)) == Flag(true) <==> role in s.nodes[u].muteRoles)
    ensures (Read(s, Mute(u, other)) == Flag(true) <==> other in s.nodes[u].mutes)
            && (Read(s, Solo(u, other)) == Flag(true) <==> other in s.nodes[u].solos)
    ensures (Read(s, RoleMuted(role)) == Flag(true) <==> role in s.rules.muted)
            && (Read(s, RoleGain(role)) == NoNumber <==> role !in s.rules.gains)
            && (Read(s, RoleAttenuation(role)) == NoNumber <==> role !in s.rules.attenuations)
  {
  }
}
