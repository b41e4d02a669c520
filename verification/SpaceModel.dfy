/**
 * What the mixer's op queue means: which cell of the space an op key names, what each op writes there, and why
 * coalescing the ops of a key changes nothing.
 */
module SpaceModel {
  import opened Common
  import opened Scope

  /** value is the decoded number of the op's value field, None when it is empty or no number. */
  datatype Op = Op(topic: string, key: string, opId: nat, tombstone: bool, value: Option<real>)

  /** What a node itself says, next to the gain and attenuation it was configured with. */
  datatype Own = Own(gain: real, attenuation: real, cfgGain: real, cfgAttenuation: real, muted: bool,
                     roles: set<string>, muteRoles: set<string>, mutes: set<Uuid>, solos: set<Uuid>)

  datatype Rules = Rules(muted: set<string>, gains: map<string, real>, attenuations: map<string, real>)

  datatype Space = Space(nodes: map<Uuid, Own>, rules: Rules)

  // ------------------------------------------------------------------ keys name cells

  datatype Cell =
    | Gain(id: Uuid) | Attenuation(id: Uuid) | Muted(id: Uuid)
    | Role(id: Uuid, role: string) | MuteRole(id: Uuid, role: string)
    | Mute(id: Uuid, other: Uuid) | Solo(id: Uuid, other: Uuid)
    | RoleMuted(role: string) | RoleGain(role: string) | RoleAttenuation(role: string)

  function Named(head: string, key: string): Option<string> {
    if head <= key && key != head then Some(key[|head|..]) else None
  }

  function Listed(c: Codec, head: string, key: string): Option<Uuid> {
    if head <= key then c.parse(key[|head|..]) else None
  }

  /** The part of an entity key after its uuid. */
  function EntityCell(c: Codec, id: Uuid, rest: string): Option<Cell> {
    if rest == "gain" then Some(Gain(id))
    else if rest == "attenuation" then Some(Attenuation(id))
    else if rest == "muted" then Some(Muted(id))
    else if "roles." <= rest then
      match Named("roles.", rest) { case Some(role) => Some(Role(id, role)) case None => None }
    else if "mutes." <= rest then
      match Listed(c, "mutes.", rest) { case Some(other) => Some(Mute(id, other)) case None => None }
    else if "solos." <= rest then
      match Listed(c, "solos.", rest) { case Some(other) => Some(Solo(id, other)) case None => None }
    else if "mute-roles." <= rest then
      match Named("mute-roles.", rest) { case Some(role) => Some(MuteRole(id, role)) case None => None }
    else None
  }

  function SpaceCell(key: string): Option<Cell> {
    if "roles-muted." <= key then
      match Named("roles-muted.", key) { case Some(role) => Some(RoleMuted(role)) case None => None }
    else if "roles-gain." <= key then
      match Named("roles-gain.", key) { case Some(role) => Some(RoleGain(role)) case None => None }
    else if "roles-attenuation." <= key then
      match Named("roles-attenuation.", key) { case Some(role) => Some(RoleAttenuation(role)) case None => None }
    else None
  }

  /** The cell an op key names; None for the keys the mixer leaves to others. */
  function CellOf(c: Codec, topic: string, key: string): Option<Cell> {
    if topic == "entity" then
      match c.parse(Cut(key).0)
      case Some(id) => EntityCell(c, id, Cut(key).1)
      case None => None
    else if topic == "space" then SpaceCell(key)
    else None
  }

  /** The one key that names a cell. */
  function KeyFor(c: Codec, x: Cell): (string, string) {
    match x
    case Gain(id) => ("entity", c.show(id) + "." + "gain")
    case Attenuation(id) => ("entity", c.show(id) + "." + "attenuation")
    case Muted(id) => ("entity", c.show(id) + "." + "muted")
    case Role(id, role) => ("entity", c.show(id) + "." + ("roles." + role))
    case MuteRole(id, role) => ("entity", c.show(id) + "." + ("mute-roles." + role))
    case Mute(id, other) => ("entity", c.show(id) + "." + ("mutes." + c.show(other)))
    case Solo(id, other) => ("entity", c.show(id) + "." + ("solos." + c.show(other)))
    case RoleMuted(role) => ("space", "roles-muted." + role)
    case RoleGain(role) => ("space", "roles-gain." + role)
    case RoleAttenuation(role) => ("space", "roles-attenuation." + role)
  }

  lemma {:induction false} CutRejoins(key: string)
    requires Cut(key).1 != ""
    ensures key == Cut(key).0 + "." + Cut(key).1
  {
    if key[0] != '.' { CutRejoins(key[1..]); }
  }

  lemma Rejoin(head: string, s: string)
    requires head <= s
    ensures s == head + s[|head|..]
  {
  }

  /** Every uuid in the key is in printed text: the subject, and the other node of a mute or a solo. */
  predicate PrintedKey(c: Codec, topic: string, key: string) {
    topic == "entity" ==>
      var (head, rest) := Cut(key);
      && PrintedText(c, head) && PrintedRest(c, rest)
  }

  predicate PrintedRest(c: Codec, rest: string) {
    ("mutes." <= rest ==> PrintedText(c, rest[6..])) && ("solos." <= rest ==> PrintedText(c, rest[6..]))
  }

  /** Distinct keys in printed text name distinct cells. */
  lemma KeyIsDetermined(c: Codec, topic: string, key: string)
    requires PrintedKey(c, topic, key) && CellOf(c, topic, key).Some?
    ensures KeyFor(c, CellOf(c, topic, key).value) == (topic, key)
  {
    if topic == "entity" {
      var (head, rest) := Cut(key);
      CutRejoins(key);
      assert head == c.show(c.parse(head).value);
      EntityKeyIsDetermined(c, c.parse(head).value, rest);
    } else {
      SpaceKeyIsDetermined(c, key);
    }
  }

  lemma EntityKeyIsDetermined(c: Codec, id: Uuid, rest: string)
    requires PrintedRest(c, rest) && EntityCell(c, id, rest).Some?
    ensures KeyFor(c, EntityCell(c, id, rest).value) == ("entity", c.show(id) + "." + rest)
  {
    if "roles." <= rest { Rejoin("roles.", rest); }
    else if "mutes." <= rest { Rejoin("mutes.", rest); }
    else if "solos." <= rest { Rejoin("solos.", rest); }
    else if "mute-roles." <= rest { Rejoin("mute-roles.", rest); }
  }

  lemma SpaceKeyIsDetermined(c: Codec, key: string)
    requires SpaceCell(key).Some?
    ensures KeyFor(c, SpaceCell(key).value) == ("space", key)
  {
    if "roles-muted." <= key { Rejoin("roles-muted.", key); }
    else if "roles-gain." <= key { Rejoin("roles-gain.", key); }
    else { Rejoin("roles-attenuation.", key); }
  }

  // ------------------------------------------------------------------ what an op writes

  datatype Val = Number(n: real) | NoNumber | Flag(b: bool) | Nowhere

  predicate Numeric(x: Cell) { x.Gain? || x.Attenuation? || x.RoleGain? || x.RoleAttenuation? }

  /** The op changes its cell: a set of a numeric cell needs a number, a tombstone and a flag need nothing. */
  predicate Acts(c: Codec, op: Op) {
    var x := CellOf(c, op.topic, op.key);
    x.Some? && (op.tombstone || !Numeric(x.value) || op.value.Some?)
  }

  predicate ActsOn(c: Codec, op: Op, x: Cell) { Acts(c, op) && CellOf(c, op.topic, op.key) == Some(x) }

  function Read(s: Space, x: Cell): Val {
    match x
    case Gain(id) => if id in s.nodes then Number(s.nodes[id].gain) else Nowhere
    case Attenuation(id) => if id in s.nodes then Number(s.nodes[id].attenuation) else Nowhere
    case Muted(id) => if id in s.nodes then Flag(s.nodes[id].muted) else Nowhere
    case Role(id, role) => if id in s.nodes then Flag(role in s.nodes[id].roles) else Nowhere
    case MuteRole(id, role) => if id in s.nodes then Flag(role in s.nodes[id].muteRoles) else Nowhere
    case Mute(id, other) => if id in s.nodes then Flag(other in s.nodes[id].mutes) else Nowhere
    case Solo(id, other) => if id in s.nodes then Flag(other in s.nodes[id].solos) else Nowhere
    case RoleMuted(role) => Flag(role in s.rules.muted)
    case RoleGain(role) => if role in s.rules.gains then Number(s.rules.gains[role]) else NoNumber
    case RoleAttenuation(role) => if role in s.rules.attenuations then Number(s.rules.attenuations[role]) else NoNumber
  }

  /** What an op leaves in its cell: the value, or for a tombstone the configured default, nothing, or false. */
  function Intended(s: Space, x: Cell, op: Op): Val
    requires Numeric(x) && !op.tombstone ==> op.value.Some?
  {
    match x
    case Gain(id) =>
      if id !in s.nodes then Nowhere else Number(if op.tombstone then s.nodes[id].cfgGain else op.value.value)
    case Attenuation(id) =>
      if id !in s.nodes then Nowhere else Number(if op.tombstone then s.nodes[id].cfgAttenuation else op.value.value)
    case RoleGain(_) => if op.tombstone then NoNumber else Number(op.value.value)
    case RoleAttenuation(_) => if op.tombstone then NoNumber else Number(op.value.value)
    case RoleMuted(_) => Flag(!op.tombstone)
    case _ => if x.id in s.nodes then Flag(!op.tombstone) else Nowhere
  }

  function Toggle<T>(s: set<T>, x: T, on: bool): set<T> { if on then s + {x} else s - {x} }

  function Assign(m: map<string, real>, role: string, value: Option<real>): map<string, real> {
    match value
    case Some(v) => m[role := v]
    case None => m - {role}
  }

  /** The mutators on the node's own fields. */
  function WriteOwn(e: Own, x: Cell, op: Op): Own
    requires Numeric(x) && !op.tombstone ==> op.value.Some?
  {
    match x
    case Gain(_) => e.(gain := if op.tombstone then e.cfgGain else op.value.value)
    case Attenuation(_) => e.(attenuation := if op.tombstone then e.cfgAttenuation else op.value.value)
    case Muted(_) => e.(muted := !op.tombstone)
    case Role(_, role) => e.(roles := Toggle(e.roles, role, !op.tombstone))
    case MuteRole(_, role) => e.(muteRoles := Toggle(e.muteRoles, role, !op.tombstone))
    case Mute(_, other) => e.(mutes := Toggle(e.mutes, other, !op.tombstone))
    case Solo(_, other) => e.(solos := Toggle(e.solos, other, !op.tombstone))
    case _ => e
  }

  function WriteRules(r: Rules, x: Cell, op: Op): Rules
    requires Numeric(x) && !op.tombstone ==> op.value.Some?
  {
    match x
    case RoleMuted(role) => r.(muted := Toggle(r.muted, role, !op.tombstone))
    case RoleGain(role) => r.(gains := Assign(r.gains, role, if op.tombstone then None else op.value))
    case RoleAttenuation(role) =>
      r.(attenuations := Assign(r.attenuations, role, if op.tombstone then None else op.value))
    case _ => r
  }

  predicate IsRule(x: Cell) { x.RoleMuted? || x.RoleGain? || x.RoleAttenuation? }

  /** One op: ops for unknown nodes, unknown keys and malformed values change nothing. */
  function Apply(c: Codec, s: Space, op: Op): Space {
    if !Acts(c, op) then s
    else
      var x := CellOf(c, op.topic, op.key).value;
      if IsRule(x) then s.(rules := WriteRules(s.rules, x, op))
      else if x.id in s.nodes then s.(nodes := s.nodes[x.id := WriteOwn(s.nodes[x.id], x, op)])
      else s
  }

  function ApplyAll(c: Codec, s: Space, ops: seq<Op>): Space {
    if ops == [] then s else Apply(c, ApplyAll(c, s, ops[..|ops| - 1]), ops[|ops| - 1])
  }

  /** The same nodes with the same configuration. */
  predicate SameFrame(a: Space, b: Space) {
    && a.nodes.Keys == b.nodes.Keys
    && forall u :: u in a.nodes ==>
         a.nodes[u].cfgGain == b.nodes[u].cfgGain && a.nodes[u].cfgAttenuation == b.nodes[u].cfgAttenuation
  }

  lemma ApplyReads(c: Codec, s: Space, op: Op, x: Cell)
    ensures SameFrame(s, Apply(c, s, op))
    ensures Read(Apply(c, s, op), x) == if ActsOn(c, op, x) then Intended(s, x, op) else Read(s, x)
  {
    hide CellOf;
    if Acts(c, op) {
      var y := CellOf(c, op.topic, op.key).value;
      if IsRule(y) { RuleReads(s, y, op, x); } else if y.id in s.nodes { NodeReads(s, y, op, x); }
      hide WriteRules, WriteOwn, Numeric;
    }
  }

  lemma RuleReads(s: Space, y: Cell, op: Op, x: Cell)
    requires IsRule(y) && (Numeric(y) && !op.tombstone ==> op.value.Some?)
    ensures Read(s.(rules := WriteRules(s.rules, y, op)), x) == if x == y then Intended(s, x, op) else Read(s, x)
  {
  }

  lemma NodeReads(s: Space, y: Cell, op: Op, x: Cell)
    requires !IsRule(y) && (Numeric(y) && !op.tombstone ==> op.value.Some?) && y.id in s.nodes
    ensures var t := s.(nodes := s.nodes[y.id := WriteOwn(s.nodes[y.id], y, op)]);
            SameFrame(s, t) && Read(t, x) == if x == y then Intended(s, x, op) else Read(s, x)
  {
  }

  lemma SameFrameSameIntent(a: Space, b: Space, x: Cell, op: Op)
    requires SameFrame(a, b) && (Numeric(x) && !op.tombstone ==> op.value.Some?)
    ensures Intended(a, x, op) == Intended(b, x, op)
  {
  }

  /** A space is its cells. */
  lemma CellsAreAll(a: Space, b: Space)
    requires SameFrame(a, b) && forall x :: Read(a, x) == Read(b, x)
    ensures a == b
  {
    forall u | u in a.nodes
      ensures a.nodes[u] == b.nodes[u]
    {
      assert Read(a, Gain(u)) == Read(b, Gain(u)) && Read(a, Attenuation(u)) == Read(b, Attenuation(u));
      assert Read(a, Muted(u)) == Read(b, Muted(u));
      forall r ensures r in a.nodes[u].roles <==> r in b.nodes[u].roles {
        assert Read(a, Role(u, r)) == Read(b, Role(u, r));
      }
      forall r ensures r in a.nodes[u].muteRoles <==> r in b.nodes[u].muteRoles {
        assert Read(a, MuteRole(u, r)) == Read(b, MuteRole(u, r));
      }
      forall o: Uuid ensures o in a.nodes[u].mutes <==> o in b.nodes[u].mutes {
        assert Read(a, Mute(u, o)) == Read(b, Mute(u, o));
      }
      forall o: Uuid ensures o in a.nodes[u].solos <==> o in b.nodes[u].solos {
        assert Read(a, Solo(u, o)) == Read(b, Solo(u, o));
      }
    }
    RulesAreAll(a, b);
  }

  lemma RulesAreAll(a: Space, b: Space)
    requires forall x :: Read(a, x) == Read(b, x)
    ensures a.rules == b.rules
  {
    forall r ensures r in a.rules.muted <==> r in b.rules.muted {
      assert Read(a, RoleMuted(r)) == Read(b, RoleMuted(r));
    }
    forall r
      ensures r in a.rules.gains <==> r in b.rules.gains
      ensures r in a.rules.gains ==> a.rules.gains[r] == b.rules.gains[r]
    {
      assert Read(a, RoleGain(r)) == Read(b, RoleGain(r));
    }
    forall r
      ensures r in a.rules.attenuations <==> r in b.rules.attenuations
      ensures r in a.rules.attenuations ==> a.rules.attenuations[r] == b.rules.attenuations[r]
    {
      assert Read(a, RoleAttenuation(r)) == Read(b, RoleAttenuation(r));
    }
    assert a.rules.gains == b.rules.gains && a.rules.attenuations == b.rules.attenuations;
  }

  function LastActing(c: Codec, ops: seq<Op>, x: Cell): (r: Option<Op>)
    ensures r.Some? ==> ActsOn(c, r.value, x) && r.value in ops
    ensures r.None? ==> forall i :: 0 <= i < |ops| ==> !ActsOn(c, ops[i], x)
  {
    if ops == [] then None
    else if ActsOn(c, ops[|ops| - 1], x) then Some(ops[|ops| - 1])
    else LastActing(c, ops[..|ops| - 1], x)
  }

  /** One by one, a cell ends up with what the last op that acts on it intends. */
  lemma {:induction false} AllReads(c: Codec, s: Space, ops: seq<Op>, x: Cell)
    ensures SameFrame(s, ApplyAll(c, s, ops))
    ensures Read(ApplyAll(c, s, ops), x) ==
            match LastActing(c, ops, x) { case Some(op) => Intended(s, x, op) case None => Read(s, x) }
  {
    if ops != [] {
      var init, last := ops[..|ops| - 1], ops[|ops| - 1];
      AllReads(c, s, init, x);
      var t := ApplyAll(c, s, init);
      ApplyReads(c, t, last, x);
      if ActsOn(c, last, x) { SameFrameSameIntent(t, s, x, last); }
    }
  }

  // ------------------------------------------------------------------ ops that come before their node

  /** The node joins with its configuration. */
  function Add(s: Space, u: Uuid, own: Own): Space { s.(nodes := s.nodes[u := own]) }

  predicate IsCellOf(x: Cell, u: Uuid) { !IsRule(x) && x.id == u }

  lemma AddReads(s: Space, u: Uuid, own: Own, x: Cell)
    ensures !IsCellOf(x, u) ==> Read(Add(s, u, own), x) == Read(s, x)
  {
  }

  lemma IntentElsewhere(s: Space, u: Uuid, own: Own, x: Cell, op: Op)
    requires !IsCellOf(x, u) && (Numeric(x) && !op.tombstone ==> op.value.Some?)
    ensures Intended(Add(s, u, own), x, op) == Intended(s, x, op)
  {
  }

  /** A drain leaves no trace on a node that is not there: once added it is as its configuration says. */
  lemma OpsForAbsentNodesAreLost(c: Codec, s: Space, ops: seq<Op>, u: Uuid, own: Own, x: Cell)
    requires u !in s.nodes && IsCellOf(x, u)
    ensures Read(ApplyAll(c, s, ops), x) == Nowhere
    ensures Read(Add(ApplyAll(c, s, ops), u, own), x) == Read(Add(s, u, own), x)
  {
    AllReads(c, s, ops, x);
    hide ApplyAll, LastActing, Intended;
    AddedNodeReads(s, ApplyAll(c, s, ops), u, own, x);
  }

  lemma AddedNodeReads(s: Space, t: Space, u: Uuid, own: Own, x: Cell)
    requires SameFrame(s, t) && u !in s.nodes && IsCellOf(x, u)
    ensures Read(t, x) == Nowhere && Read(Add(t, u, own), x) == Read(Add(s, u, own), x)
  {
  }

  /** The last op that acts on the cell agrees with what the space holds there. */
  predicate SaysNothingNew(c: Codec, s: Space, ops: seq<Op>, x: Cell) {
    var last := LastActing(c, ops, x); last.Some? ==> Intended(s, x, last.value) == Read(s, x)
  }

  /** Cell by cell, draining before the node joins and draining after it differ in the node's own cells only. */
  lemma DrainedEarly(c: Codec, s: Space, ops: seq<Op>, u: Uuid, own: Own, x: Cell)
    requires u !in s.nodes
    ensures var early, late := Add(ApplyAll(c, s, ops), u, own), ApplyAll(c, Add(s, u, own), ops);
            Read(early, x) == Read(late, x) <==> !IsCellOf(x, u) || SaysNothingNew(c, Add(s, u, own), ops, x)
  {
    AllReads(c, s, ops, x);
    AllReads(c, Add(s, u, own), ops, x);
    AddReads(ApplyAll(c, s, ops), u, own, x);
    AddReads(s, u, own, x);
    var last := LastActing(c, ops, x);
    if IsCellOf(x, u) {
      OpsForAbsentNodesAreLost(c, s, ops, u, own, x);
    } else if last.Some? {
      IntentElsewhere(s, u, own, x, last.value);
    }
    hide ApplyAll, Add, Intended, Read, LastActing;
  }

  /**
   * Draining before the node joins is as good as draining after it exactly when no op says anything new about the node.
   */
  lemma EarlyDrainIsHarmlessExactly(c: Codec, s: Space, ops: seq<Op>, u: Uuid, own: Own)
    requires u !in s.nodes
    ensures Add(ApplyAll(c, s, ops), u, own) == ApplyAll(c, Add(s, u, own), ops)
       <==> forall x :: IsCellOf(x, u) ==> SaysNothingNew(c, Add(s, u, own), ops, x)
  {
    var early, late := Add(ApplyAll(c, s, ops), u, own), ApplyAll(c, Add(s, u, own), ops);
    forall x
      ensures Read(early, x) == Read(late, x) <==> (IsCellOf(x, u) ==> SaysNothingNew(c, Add(s, u, own), ops, x))
    {
      DrainedEarly(c, s, ops, u, own, x);
    }
    EarlyHasTheFrame(c, s, ops, u, own);
    hide ApplyAll, Add, Read, SaysNothingNew, IsCellOf, SameFrame;
    if forall x :: Read(early, x) == Read(late, x) { CellsAreAll(early, late); }
  }

  lemma EarlyHasTheFrame(c: Codec, s: Space, ops: seq<Op>, u: Uuid, own: Own)
    requires u !in s.nodes
    ensures SameFrame(Add(ApplyAll(c, s, ops), u, own), ApplyAll(c, Add(s, u, own), ops))
  {
    AllReads(c, s, ops, Muted(u));
    AllReads(c, Add(s, u, own), ops, Muted(u));
    hide ApplyAll, LastActing;
  }

  /** A gain sent a moment before its node joins is lost: the node keeps its configured gain. */
  lemma EarlyGainIsLost(c: Codec, u: Uuid)
    requires Canonical(c)
    ensures var s, own := Space(map[], Rules({}, map[], map[])), Own(1.0, 2.0, 1.0, 2.0, false, {}, {}, {}, {});
            var op := Op("entity", FieldKey(c, u, "gain"), 1, false, Some(0.5));
            && Read(Add(ApplyAll(c, s, [op]), u, own), Gain(u)) == Number(1.0)
            && Read(ApplyAll(c, Add(s, u, own), [op]), Gain(u)) == Number(0.5)
  {
    var s, own := Space(map[], Rules({}, map[], map[])), Own(1.0, 2.0, 1.0, 2.0, false, {}, {}, {}, {});
    var op := Op("entity", FieldKey(c, u, "gain"), 1, false, Some(0.5));
    assert c.parse(c.show(u)) == Some(u);
    CutJoined(c.show(u), "gain");
    assert ActsOn(c, op, Gain(u));
    assert LastActing(c, [op], Gain(u)) == Some(op);
    OpsForAbsentNodesAreLost(c, s, [op], u, own, Gain(u));
    AllReads(c, Add(s, u, own), [op], Gain(u));
    hide ApplyAll, LastActing, CellOf, FieldKey;
  }
}
