/** The command catalogue: from a named command and its arguments to exactly one cache op. */
module Commands {
  import opened Common
  import opened Scope

  /** The decoded argument record; a command reads only its own fields. */
  datatype Args = Args(entityId: Uuid, gain: real, attenuation: real, mins: int, role: string)

  datatype Value = Flag | Amount(v: real) | Until(millis: int) | Nothing

  datatype Op = Op(topic: string, key: string, value: Value, tombstone: bool)

  datatype Error = UnknownCommand | NotAuthorized | InvalidArguments

  function Set(topic: string, key: string, v: Value): Option<Op> { Some(Op(topic, key, v, false)) }

  function Tomb(topic: string, key: string): Option<Op> { Some(Op(topic, key, Nothing, true)) }

  predicate InRange(v: real) { 0.0 <= v <= 3.0 }

  /** Minutes from now to a deadline in milliseconds; 0 is "no expiry", negative is refused. */
  function KickExpiry(mins: int, now: int): Option<int> {
    if mins < 0 then None else if mins == 0 then Some(0) else Some(now + mins * 60_000)
  }

  const SPACE_ENTITY := {
    "space.entity.mute", "space.entity.unmute", "space.entity.kick", "space.entity.unkick",
    "space.entity.set_gain", "space.entity.set_attenuation"}

  const SPACE_ROLE := {
    "space.role.mute", "space.role.unmute", "space.role.kick", "space.role.unkick",
    "space.role.set_gain", "space.role.unset_gain", "space.role.set_attenuation", "space.role.unset_attenuation"}

  const PERSONAL_ENTITY := {
    "personal.entity.mute", "personal.entity.unmute", "personal.entity.solo", "personal.entity.unsolo"}

  const PERSONAL_ROLE := {"personal.role.mute", "personal.role.unmute"}

  const NAMES := SPACE_ENTITY + SPACE_ROLE + PERSONAL_ENTITY + PERSONAL_ROLE

  function BuildSpaceEntity(c: Codec, cmd: string, a: Args, now: int): Option<Op> {
    if a.entityId == NIL then None
    else if cmd == "space.entity.mute" then Set("entity", FieldKey(c, a.entityId, "muted"), Flag)
    else if cmd == "space.entity.unmute" then Tomb("entity", FieldKey(c, a.entityId, "muted"))
    else if cmd == "space.entity.kick" then
      (match KickExpiry(a.mins, now)
       case None => None
       case Some(t) => Set("entity", FieldKey(c, a.entityId, "kicked"), Until(t)))
    else if cmd == "space.entity.unkick" then Tomb("entity", FieldKey(c, a.entityId, "kicked"))
    else if cmd == "space.entity.set_gain" then
      if InRange(a.gain) then Set("entity", FieldKey(c, a.entityId, "gain"), Amount(a.gain)) else None
    else if cmd == "space.entity.set_attenuation" then
      if InRange(a.attenuation) then Set("entity", FieldKey(c, a.entityId, "attenuation"), Amount(a.attenuation))
      else None
    else None
  }

  function BuildSpaceRole(cmd: string, a: Args, now: int): Option<Op> {
    if a.role == "" then None
    else if cmd == "space.role.mute" then Set("space", "roles-muted." + a.role, Flag)
    else if cmd == "space.role.unmute" then Tomb("space", "roles-muted." + a.role)
    else if cmd == "space.role.kick" then
      (match KickExpiry(a.mins, now) case None => None case Some(t) => Set("space", "roles-kicked." + a.role, Until(t)))
    else if cmd == "space.role.unkick" then Tomb("space", "roles-kicked." + a.role)
    else if cmd == "space.role.set_gain" then
      if InRange(a.gain) then Set("space", "roles-gain." + a.role, Amount(a.gain)) else None
    else if cmd == "space.role.unset_gain" then Tomb("space", "roles-gain." + a.role)
    else if cmd == "space.role.set_attenuation" then
      if InRange(a.attenuation) then Set("space", "roles-attenuation." + a.role, Amount(a.attenuation)) else None
    else if cmd == "space.role.unset_attenuation" then Tomb("space", "roles-attenuation." + a.role)
    else None
  }

  /** The leading uuid comes from the ticket, never from the arguments. */
  function BuildPersonal(c: Codec, cmd: string, a: Args, my: Uuid): Option<Op> {
    if cmd in PERSONAL_ENTITY then
      if a.entityId == NIL then None
      else if cmd == "personal.entity.mute" then Set("entity", NestedKey(c, my, "mutes", c.show(a.entityId)), Flag)
      else if cmd == "personal.entity.unmute" then Tomb("entity", NestedKey(c, my, "mutes", c.show(a.entityId)))
      else if cmd == "personal.entity.solo" then Set("entity", NestedKey(c, my, "solos", c.show(a.entityId)), Flag)
      else Tomb("entity", NestedKey(c, my, "solos", c.show(a.entityId)))
    else if a.role == "" then None
    else if cmd == "personal.role.mute" then Set("entity", NestedKey(c, my, "mute-roles", a.role), Flag)
    else if cmd == "personal.role.unmute" then Tomb("entity", NestedKey(c, my, "mute-roles", a.role))
    else None
  }

  /** One command's Build; args is None when the raw JSON does not decode. */
  function Build(c: Codec, cmd: string, args: Option<Args>, my: Uuid, now: int): Option<Op> {
    match args
    case None => None
    case Some(a) =>
      if cmd in SPACE_ENTITY then BuildSpaceEntity(c, cmd, a, now)
      else if cmd in SPACE_ROLE then BuildSpaceRole(cmd, a, now)
      else BuildPersonal(c, cmd, a, my)
  }

  // ------------------------------------------------------------------ authorisation

  const EVERYONE := "everyone"

  type Permissions = map<string, seq<string>>

  predicate RoleGrants(p: Permissions, role: string, cmd: string) { role in p && cmd in p[role] }

  predicate IsCommandAllowed(p: Permissions, roles: seq<string>, cmd: string) {
    RoleGrants(p, EVERYONE, cmd) || exists i :: 0 <= i < |roles| && RoleGrants(p, roles[i], cmd)
  }

  /** The loop behind IsCommandAllowed. */
  method CheckAllowed(p: Permissions, roles: seq<string>, cmd: string) returns (ok: bool)
    ensures ok == IsCommandAllowed(p, roles, cmd)
  {
    if RoleGrants(p, EVERYONE, cmd) {
      return true;
    }
    for i := 0 to |roles|
      invariant forall j :: 0 <= j < i ==> !RoleGrants(p, roles[j], cmd)
    {
      if RoleGrants(p, roles[i], cmd) {
        return true;
      }
    }
    return false;
  }

  /** Look up, authorise, build: in that order, with the first failure reported. */
  function Dispatch(c: Codec, auth: Option<Permissions>, cmd: string, args: Option<Args>, my: Uuid, roles: seq<string>,
                    now: int)
    : Result<Op, Error>
  {
    if cmd !in NAMES then Err(UnknownCommand)
    else if auth.None? || !IsCommandAllowed(auth.value, roles, cmd) then Err(NotAuthorized)
    else match Build(c, cmd, args, my, now)
         case None => Err(InvalidArguments)
         case Some(op) => Ok(op)
  }

  lemma KeysHaveDots(c: Codec, u: Uuid)
    ensures forall field :: '.' in FieldKey(c, u, field)
    ensures forall field, rest :: '.' in NestedKey(c, u, field, rest)
  {
    forall field: string
      ensures '.' in FieldKey(c, u, field)
    {
      assert FieldKey(c, u, field)[|c.show(u)|] == '.';
    }
    forall field: string, rest: string
      ensures '.' in NestedKey(c, u, field, rest)
    {
      assert NestedKey(c, u, field, rest)[|c.show(u)|] == '.';
    }
  }

  lemma SpaceEntityOpIsPolicy(c: Codec, cmd: string, a: Args, now: int)
    requires Canonical(c) && BuildSpaceEntity(c, cmd, a, now).Some?
    ensures var op := BuildSpaceEntity(c, cmd, a, now).value;
            op.topic == "entity" && ClassifyKey(c, op.topic, op.key) == (Policy, a.entityId) && '.' in op.key
  {
    hide FieldKey, SplitSubjectKey;
    FieldKeySplits(c, a.entityId, "muted", "");
    FieldKeySplits(c, a.entityId, "kicked", "");
    FieldKeySplits(c, a.entityId, "gain", "");
    FieldKeySplits(c, a.entityId, "attenuation", "");
    KeysHaveDots(c, a.entityId);
  }

  lemma PersonalOpIsOwn(c: Codec, cmd: string, a: Args, my: Uuid)
    requires Canonical(c) && BuildPersonal(c, cmd, a, my).Some?
    ensures var op := BuildPersonal(c, cmd, a, my).value;
            op.topic == "entity" && Owns(c, my, op.topic, op.key) && '.' in op.key
  {
    hide NestedKey, SplitSubjectKey;
    FieldKeySplits(c, my, "mutes", c.show(a.entityId));
    FieldKeySplits(c, my, "solos", c.show(a.entityId));
    FieldKeySplits(c, my, "mute-roles", a.role);
    KeysHaveDots(c, my);
  }

  /**
   * Whatever the arguments and the role strings, an op Dispatch builds for an issuer either is policy-scoped
   * or is the issuer's own connection key, so the write filter lets it through for that issuer; and it is
   * never a bare existence marker.
   */
  lemma DispatchedOpPassesTheFilter(c: Codec, auth: Option<Permissions>, cmd: string, args: Option<Args>, my: Uuid,
                                    roles: seq<string>, now: int)
    requires Canonical(c) && Dispatch(c, auth, cmd, args, my, roles, now).Ok?
    ensures var op := Dispatch(c, auth, cmd, args, my, roles, now).value;
            && (ClassifyKey(c, op.topic, op.key).0 == Policy || Owns(c, my, op.topic, op.key))
            && Permitted(c, my, op.topic, op.key)
            && (op.topic == "entity" ==> c.parse(op.key) == None)
  {
    var a := args.value;
    if cmd in SPACE_ENTITY {
      SpaceEntityOpIsPolicy(c, cmd, a, now);
    } else if cmd !in SPACE_ROLE {
      PersonalOpIsOwn(c, cmd, a, my);
    }
  }

  /** The arguments each command accepts. */
  predicate ValidArgs(cmd: string, a: Args) {
    if cmd in {"space.entity.mute", "space.entity.unmute", "space.entity.unkick",
               "personal.entity.mute", "personal.entity.unmute", "personal.entity.solo", "personal.entity.unsolo"}
    then a.entityId != NIL
    else if cmd == "space.entity.kick" then a.entityId != NIL && a.mins >= 0
    else if cmd == "space.entity.set_gain" then a.entityId != NIL && 0.0 <= a.gain <= 3.0
    else if cmd == "space.entity.set_attenuation" then a.entityId != NIL && 0.0 <= a.attenuation <= 3.0
    else if cmd == "space.role.kick" then a.role != "" && a.mins >= 0
    else if cmd == "space.role.set_gain" then a.role != "" && 0.0 <= a.gain <= 3.0
    else if cmd == "space.role.set_attenuation" then a.role != "" && 0.0 <= a.attenuation <= 3.0
    else a.role != ""
  }

  lemma BuildsExactly(c: Codec, cmd: string, a: Args, my: Uuid, now: int)
    requires cmd in NAMES
    ensures Build(c, cmd, Some(a), my, now).Some? <==> ValidArgs(cmd, a)
  {
    hide FieldKey, NestedKey;
  }

  /** The catalogue. */
  lemma NamesSpelledOut()
    ensures NAMES == {
              "space.entity.mute", "space.entity.unmute", "space.entity.kick", "space.entity.unkick",
              "space.entity.set_gain", "space.entity.set_attenuation",
              "space.role.mute", "space.role.unmute", "space.role.kick", "space.role.unkick",
              "space.role.set_gain", "space.role.unset_gain", "space.role.set_attenuation",
                  "space.role.unset_attenuation",
              "personal.entity.mute", "personal.entity.unmute", "personal.entity.solo", "personal.entity.unsolo",
              "personal.role.mute", "personal.role.unmute"}
  {
  }

  /** And fails with the first of: unknown, not granted to the issuer or to everyone, arguments refused. */
  lemma DispatchFailsExactly(c: Codec, auth: Option<Permissions>, cmd: string, args: Option<Args>, my: Uuid,
                             roles: seq<string>, now: int)
    ensures var r := Dispatch(c, auth, cmd, args, my, roles, now);
            var granted := auth.Some? && exists role ::
                             (role == "everyone" || role in roles) && role in auth.value && cmd in auth.value[role];
            && (r == Err(UnknownCommand) <==> cmd !in NAMES)
            && (r == Err(NotAuthorized) <==> cmd in NAMES && !granted)
            && (r == Err(InvalidArguments) <==>
                  cmd in NAMES && granted && (args.None? || !ValidArgs(cmd, args.value)))
  {
    if args.Some? && cmd in NAMES { BuildsExactly(c, cmd, args.value, my, now); }
    hide Build, ValidArgs;
    if auth.Some? {
      if i :| 0 <= i < |roles| && RoleGrants(auth.value, roles[i], cmd) { assert roles[i] in roles; }
      if role :| (role == "everyone" || role in roles) && role in auth.value && cmd in auth.value[role] {
        assert RoleGrants(auth.value, role, cmd);
      }
    }
  }

  /**
   * A dispatch succeeds exactly for a known command some role (or everyone) grants, with arguments that decode and
   * validate.
   */
  lemma DispatchSucceedsExactly(c: Codec, auth: Option<Permissions>, cmd: string, args: Option<Args>, my: Uuid,
                                roles: seq<string>, now: int)
    ensures Dispatch(c, auth, cmd, args, my, roles, now).Ok? <==>
              && cmd in NAMES
              && auth.Some?
              && (exists role :: (role == EVERYONE || role in roles) && RoleGrants(auth.value, role, cmd))
              && args.Some? && ValidArgs(cmd, args.value)
  {
    if args.Some? && cmd in NAMES { BuildsExactly(c, cmd, args.value, my, now); }
    hide Build, ValidArgs;
    if auth.Some? {
      if i :| 0 <= i < |roles| && RoleGrants(auth.value, roles[i], cmd) {
        assert roles[i] in roles;
      }
    }
  }
}
