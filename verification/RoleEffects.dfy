/** The encoder's setters and its cached role effects, against a from-scratch definition. */
module RoleEffects {
  import opened Common
  import opened Scope
  import opened SpaceModel

  // ------------------------------------------------------------------ from scratch

  /** r is the least value the map has for any of the roles, None when it has none. */
  ghost predicate IsLeast(roles: set<string>, m: map<string, real>, r: Option<real>) {
    match r
    case None => forall x :: x in roles ==> x !in m
    case Some(v) =>
      && (exists x :: x in roles && x in m && m[x] == v)
      && (forall x :: x in roles && x in m ==> v <= m[x])
  }

  lemma LeastIsUnique(roles: set<string>, m: map<string, real>, a: Option<real>, b: Option<real>)
    requires IsLeast(roles, m, a) && IsLeast(roles, m, b)
    ensures a == b
  {
  }

  /** Looking at one more role. */
  function Lower(r: Option<real>, m: map<string, real>, x: string): Option<real> {
    if x in m && (r.None? || m[x] < r.value) then Some(m[x]) else r
  }

  lemma LowerIsLeast(roles: set<string>, m: map<string, real>, r: Option<real>, x: string)
    requires IsLeast(roles, m, r)
    ensures IsLeast(roles + {x}, m, Lower(r, m, x))
  {
    if x in m { assert x in roles + {x}; }
    if r.Some? {
      var y :| y in roles && y in m && m[y] == r.value;
      assert y in roles + {x};
    }
  }

  lemma {:induction false} LeastExists(roles: set<string>, m: map<string, real>) returns (r: Option<real>)
    ensures IsLeast(roles, m, r)
    decreases |roles|
  {
    if roles == {} {
      r := None;
    } else {
      var x :| x in roles;
      r := LeastExists(roles - {x}, m);
      LowerIsLeast(roles - {x}, m, r, x);
      assert roles - {x} + {x} == roles;
      r := Lower(r, m, x);
    }
  }

  ghost function Least(roles: set<string>, m: map<string, real>): (r: Option<real>)
    ensures IsLeast(roles, m, r)
  {
    assert exists r :: IsLeast(roles, m, r) by { var r := LeastExists(roles, m); }
    var r :| IsLeast(roles, m, r);
    r
  }

  /** No applicable gain means 1, and so does an applicable gain that is not positive. */
  function Multiplier(least: Option<real>): real {
    match least { case Some(v) => if v <= 0.0 then 1.0 else v case None => 1.0 }
  }

  function NonNegative(x: real): real { if x < 0.0 then 0.0 else x }

  // ------------------------------------------------------------------ the encoder

  /** An encoder's gain side as a value; factor stands for the effective gain under the square root. */
  datatype Enc = Enc(gain: real, attenuation: real, muted: bool,
                     roles: set<string>, muteRoles: set<string>, mutes: set<Uuid>, solos: set<Uuid>,
                     roleMuted: bool, multiplier: real, roleAttenuation: Option<real>, factor: real, exponent: real)

  function Recomputed(e: Enc): Enc {
    e.(factor := NonNegative(e.gain * e.multiplier),
       exponent := (if e.roleAttenuation.Some? then e.roleAttenuation.value else e.attenuation) / 2.0)
  }

  /** The role effects, computed afresh from the roles and the space-wide rules. */
  ghost function Refreshed(e: Enc, rules: Rules): Enc {
    Recomputed(e.(roleMuted := e.roles * rules.muted != {},
                  multiplier := Multiplier(Least(e.roles, rules.gains)),
                  roleAttenuation := Least(e.roles, rules.attenuations)))
  }

  /** Everything cached is what a recomputation from scratch gives; only a gain never touched may still be negative. */
  ghost predicate Current(e: Enc, rules: Rules) {
    e == Refreshed(e, rules) || (e.gain < 0.0 && e == Refreshed(e, rules).(factor := e.gain))
  }

  /** A rule on a role the encoder does not hold does not concern it. */
  lemma OtherRolesDoNotMatter(e: Enc, a: Rules, b: Rules, role: string)
    requires role !in e.roles && Current(e, a)
    requires a.muted - {role} == b.muted - {role}
    requires a.gains - {role} == b.gains - {role} && a.attenuations - {role} == b.attenuations - {role}
    ensures Current(e, b)
  {
    SameLeast(e.roles, a.gains, b.gains, role);
    SameLeast(e.roles, a.attenuations, b.attenuations, role);
    assert forall r :: r in e.roles ==>
             (r in a.muted <==> r in a.muted - {role}) && (r in b.muted <==> r in b.muted - {role});
    assert e.roles * a.muted == e.roles * b.muted;
  }

  lemma SameLeast(roles: set<string>, a: map<string, real>, b: map<string, real>, role: string)
    requires role !in roles && a - {role} == b - {role}
    ensures Least(roles, a) == Least(roles, b)
  {
    forall x | x in roles
      ensures x in a <==> x in b
      ensures x in a ==> a[x] == b[x]
    {
      assert x in a - {role} <==> x in a;
      assert x in b - {role} <==> x in b;
    }
    LeastIsUnique(roles, b, Least(roles, b), Least(roles, a));
  }

  /** The multiplier in full: always positive; one non-positive applicable gain cancels all the others. */
  lemma MultiplierExactly(e: Enc, rules: Rules)
    ensures var m := Refreshed(e, rules).multiplier;
            && m > 0.0
            && ((exists r :: r in e.roles && r in rules.gains && rules.gains[r] <= 0.0) ==> m == 1.0)
            && ((forall r :: r in e.roles ==> r !in rules.gains) ==> m == 1.0)
            && ((exists r :: r in e.roles && r in rules.gains)
                  && (forall r :: r in e.roles && r in rules.gains ==> rules.gains[r] > 0.0) ==>
                  IsLeast(e.roles, rules.gains, Some(m)))
  {
    var least := Least(e.roles, rules.gains);
    assert IsLeast(e.roles, rules.gains, least);
  }

  /**
   * What is cached, in terms of the roles and rules alone: muted by any muted role, the least attenuation of any role,
   * the exponent half of it, and a factor that is never negative once it has been computed.
   */
  lemma CurrentMeans(e: Enc, rules: Rules)
    requires Current(e, rules)
    ensures e.roleMuted <==> exists r :: r in e.roles && r in rules.muted
    ensures e.roleAttenuation.None? <==> forall r :: r in e.roles ==> r !in rules.attenuations
    ensures forall v :: e.roleAttenuation == Some(v) ==>
              && (exists r :: r in e.roles && r in rules.attenuations && rules.attenuations[r] == v)
              && (forall r :: r in e.roles && r in rules.attenuations ==> v <= rules.attenuations[r])
    ensures e.exponent + e.exponent == if e.roleAttenuation.Some? then e.roleAttenuation.value else e.attenuation
    ensures e.gain >= 0.0 ==> e.factor == e.gain * e.multiplier
    ensures e.gain < 0.0 ==> e.factor == 0.0 || e.factor == e.gain
  {
    MultiplierExactly(e, rules);
    assert e.roleMuted <==> e.roles * rules.muted != {};
    if e.roleMuted {
      var r :| r in e.roles * rules.muted;
    }
    if r :| r in e.roles && r in rules.muted { assert r in e.roles * rules.muted; }
    hide Least, Multiplier;
    SignOfProduct(e.gain, e.multiplier);
  }

  lemma SignOfProduct(gain: real, multiplier: real)
    requires multiplier > 0.0
    ensures gain >= 0.0 ==> gain * multiplier >= 0.0
    ensures gain < 0.0 ==> gain * multiplier < 0.0
  {
  }

  class Encoder {
    var gain: real
    var attenuation: real
    var gainFactor: real
    var peerAttenuationExponent: real
    var roles: set<string>
    var muteRoles: set<string>
    var mutes: set<Uuid>
    var solos: set<Uuid>
    var spaceMuted: bool
    var spaceRoleMuted: bool
    var roleGainMultiplier: real
    var roleAttenuationOverride: Option<real>

    function View(): Enc
      reads this
    {
      Enc(gain, attenuation, spaceMuted, roles, muteRoles, mutes, solos,
          spaceRoleMuted, roleGainMultiplier, roleAttenuationOverride, gainFactor, peerAttenuationExponent)
    }

    /** The factor is not clamped here, so it is right exactly when the configured gain is not negative. */
    constructor (gain: real, attenuation: real)
      ensures View() == Enc(gain, attenuation, false, {}, {}, {}, {}, false, 1.0, None, gain, attenuation / 2.0)
      ensures forall rules :: Current(View(), rules)
      ensures View() == Recomputed(View()) <==> gain >= 0.0
    {
      this.gain, this.attenuation := gain, attenuation;
      gainFactor, peerAttenuationExponent := gain, attenuation / 2.0;
      roles, muteRoles, mutes, solos := {}, {}, {}, {};
      spaceMuted, spaceRoleMuted := false, false;
      roleGainMultiplier, roleAttenuationOverride := 1.0, None;
      new;
      forall rules: Rules
        ensures Current(View(), rules)
      {
        LeastIsUnique({}, rules.gains, Least({}, rules.gains), None);
        LeastIsUnique({}, rules.attenuations, Least({}, rules.attenuations), None);
      }
    }

    method RecomputeGainFactor()
      modifies this`gainFactor
      ensures gainFactor == NonNegative(gain * roleGainMultiplier)
    {
      var effective := gain * roleGainMultiplier;
      if effective < 0.0 { effective := 0.0; }
      gainFactor := effective;
    }

    method RecomputeAttenuationExponent()
      modifies this`peerAttenuationExponent
      ensures peerAttenuationExponent ==
              (if roleAttenuationOverride.Some? then roleAttenuationOverride.value else attenuation) / 2.0
    {
      var att := attenuation;
      if roleAttenuationOverride.Some? { att := roleAttenuationOverride.value; }
      peerAttenuationExponent := att / 2.0;
    }

    method SetGain(gain: real)
      modifies this`gain, this`gainFactor
      ensures View() == old(View()).(gain := gain, factor := NonNegative(gain * roleGainMultiplier))
    {
      this.gain := gain;
      RecomputeGainFactor();
    }

    method SetAttenuation(attenuation: real)
      modifies this`attenuation, this`peerAttenuationExponent
      ensures View() == old(View()).(attenuation := attenuation, exponent := peerAttenuationExponent)
      ensures peerAttenuationExponent ==
              (if roleAttenuationOverride.Some? then roleAttenuationOverride.value else attenuation) / 2.0
    {
      this.attenuation := attenuation;
      RecomputeAttenuationExponent();
    }

    method SetRoleGainMultiplier(m: real)
      modifies this`roleGainMultiplier, this`gainFactor
      ensures roleGainMultiplier == if m <= 0.0 then 1.0 else m
      ensures gainFactor == NonNegative(gain * roleGainMultiplier)
    {
      roleGainMultiplier := if m <= 0.0 then 1.0 else m;
      RecomputeGainFactor();
    }

    method SetRoleAttenuationOverride(att: Option<real>)
      modifies this`roleAttenuationOverride, this`peerAttenuationExponent
      ensures roleAttenuationOverride == att
      ensures peerAttenuationExponent == (if att.Some? then att.value else attenuation) / 2.0
    {
      roleAttenuationOverride := att;
      RecomputeAttenuationExponent();
    }
  }

  /** The loop over the roles: the least value any of them has. */
  method LeastOf(roles: set<string>, m: map<string, real>) returns (r: Option<real>)
    ensures r == Least(roles, m)
  {
    r := None;
    var rest := roles;
    while rest != {}
      invariant rest <= roles && IsLeast(roles - rest, m, r)
    {
      var x :| x in rest;
      LowerIsLeast(roles - rest, m, r, x);
      assert roles - (rest - {x}) == roles - rest + {x};
      if x in m && (r.None? || m[x] < r.value) { r := Some(m[x]); }
      rest := rest - {x};
    }
    assert roles - {} == roles;
    LeastIsUnique(roles, m, r, Least(roles, m));
  }

  /** Brings one encoder's cached role effects up to date. */
  method RefreshEncoderRoleEffects(e: Encoder, rules: Rules)
    modifies e
    ensures e.View() == Refreshed(old(e.View()), rules)
    ensures e.spaceRoleMuted <==> exists r :: r in e.roles && r in rules.muted
    ensures IsLeast(e.roles, rules.attenuations, e.roleAttenuationOverride)
  {
    var muted := false;
    if rules.muted != {} && e.roles != {} { muted := rules.muted * e.roles != {}; }
    e.spaceRoleMuted := muted;
    assert muted <==> e.roles * rules.muted != {} by { assert e.roles * rules.muted == rules.muted * e.roles; }
    if muted {
      ghost var r :| r in rules.muted * e.roles;
    }
    assert muted <==> exists r :: r in e.roles && r in rules.muted by {
      if r :| r in e.roles && r in rules.muted { assert r in e.roles * rules.muted; }
    }

    var least := LeastOf(e.roles, rules.gains);
    var multiplier := match least { case Some(v) => v case None => 1.0 };
    e.SetRoleGainMultiplier(multiplier);

    var att := LeastOf(e.roles, rules.attenuations);
    e.SetRoleAttenuationOverride(att);
  }
}
