/**
 * Whose key is it, and does it outlive a connection? The classifier every departure and every write
 * check depends on, and the in-place write filter built on it.
 */
module Scope {
  import opened Common

  type Uuid = nat

  const NIL: Uuid := 0

  /** Uuid text is a parameter: how a uuid prints and which strings parse. */
  datatype Codec = Codec(show: Uuid -> string, parse: string -> Option<Uuid>)

  /**
   * What the program relies on: printing parses back, and no text that parses contains a dot. The second half is true
   * of every form the uuid parser accepts but one: of the 38-character form it does not examine the first and the last
   * character, so either may be a dot. A key split at its first dot never shows it such a text; a whole key may.
   */
  ghost predicate Canonical(c: Codec) {
    && (forall u: Uuid :: c.parse(c.show(u)) == Some(u))
    && (forall s :: c.parse(s).Some? ==> '.' !in s)
  }

  /** The parser accepts several texts per uuid; this is the one it prints as, or no uuid at all. */
  predicate PrintedText(c: Codec, s: string) { c.parse(s).Some? ==> s == c.show(c.parse(s).value) }

  datatype KeyScope = Connection | Policy

  /** strings.Cut at the first dot: the part before and the part after ("" when there is no dot). */
  function Cut(s: string): (string, string) {
    if s == "" then ("", "")
    else if s[0] == '.' then ("", s[1..])
    else (s[..1] + Cut(s[1..]).0, Cut(s[1..]).1)
  }

  lemma {:induction false} CutJoined(head: string, rest: string)
    requires '.' !in head
    ensures Cut(head + "." + rest) == (head, rest)
  {
    var s := head + "." + rest;
    if head == "" {
      assert s[1..] == rest;
    } else {
      assert s[1..] == head[1..] + "." + rest;
      CutJoined(head[1..], rest);
      assert s[..1] + head[1..] == head;
    }
  }

  lemma {:induction false} CutWhole(head: string)
    requires '.' !in head
    ensures Cut(head) == (head, "")
  {
    if head != "" {
      CutWhole(head[1..]);
      assert head[..1] + head[1..] == head;
    }
  }

  /** "{uuid}.field.rest" into subject and first field; a head that is no uuid gives NIL and no field. */
  function SplitSubjectKey(c: Codec, key: string): (Uuid, string) {
    var (head, rest) := Cut(key);
    match c.parse(head)
    case None => (NIL, "")
    case Some(id) => (id, Cut(rest).0)
  }

  predicate IsPolicyField(field: string) { field in {"muted", "kicked", "gain", "attenuation"} }

  function ClassifyKey(c: Codec, topic: string, key: string): (KeyScope, Uuid) {
    if topic == "space" then (Policy, NIL)
    else if topic == "entity" then
      var (subject, field) := SplitSubjectKey(c, key);
      (if IsPolicyField(field) then Policy else Connection, subject)
    else (Connection, SplitSubjectKey(c, key).0)
  }

  /** The key is tied to subject's connection and to nothing else. */
  predicate Owns(c: Codec, subject: Uuid, topic: string, key: string) {
    ClassifyKey(c, topic, key) == (Connection, subject)
  }

  function FieldKey(c: Codec, u: Uuid, field: string): string { c.show(u) + "." + field }

  function NestedKey(c: Codec, u: Uuid, field: string, rest: string): string { c.show(u) + "." + field + "." + rest }

  lemma FieldKeySplits(c: Codec, u: Uuid, field: string, rest: string)
    requires Canonical(c) && '.' !in field
    ensures SplitSubjectKey(c, FieldKey(c, u, field)) == (u, field)
    ensures SplitSubjectKey(c, NestedKey(c, u, field, rest)) == (u, field)
    ensures SplitSubjectKey(c, c.show(u)) == (u, "")
  {
    assert c.parse(c.show(u)) == Some(u);
    CutJoined(c.show(u), field);
    CutWhole(field);
    assert NestedKey(c, u, field, rest) == c.show(u) + "." + (field + "." + rest);
    CutJoined(c.show(u), field + "." + rest);
    CutJoined(field, rest);
    CutWhole(c.show(u));
  }

  /** Of the fields of a uuid's entity record exactly the administrative ones outlive its connection. */
  lemma PolicyKeysExactly(c: Codec, u: Uuid, field: string, rest: string)
    requires Canonical(c) && '.' !in field
    ensures ClassifyKey(c, "entity", FieldKey(c, u, field))
         == (if field == "muted" || field == "kicked" || field == "gain"
             || field == "attenuation" then Policy else Connection, u)
    ensures ClassifyKey(c, "entity", NestedKey(c, u, field, rest)) == ClassifyKey(c, "entity", FieldKey(c, u, field))
    ensures ClassifyKey(c, "attributes", FieldKey(c, u, field)) == (Connection, u)
    ensures ClassifyKey(c, "entity", c.show(u)) == (Connection, u)
  {
    FieldKeySplits(c, u, field, rest);
    hide SplitSubjectKey, FieldKey, NestedKey;
  }

  lemma SpaceTopicIsPolicy(c: Codec, key: string)
    ensures ClassifyKey(c, "space", key) == (Policy, NIL)
  {
  }

  /**
   * Who may write what: nobody but the subject and the system a key tied to that subject's connection; all else,
   * anyone.
   */
  lemma PermittedExactly(c: Codec, source: Uuid, topic: string, key: string)
    ensures Permitted(c, source, topic, key) <==>
              source == 0 || ClassifyKey(c, topic, key).0 == Policy || ClassifyKey(c, topic, key).1 in {0, source}
  {
    hide ClassifyKey;
  }

  // ------------------------------------------------------------------ what a client announces about itself

  /** A cached key together with its topic. */
  datatype Slot = Slot(topic: string, key: string)

  /** The keys of sendEntity: existence marker, subspaces, roles (empty role names skipped). */
  function EntityKeys(c: Codec, u: Uuid, subspaces: seq<string>, roles: seq<string>): set<Slot> {
    {Slot("entity", c.show(u))}
    + (set i | 0 <= i < |subspaces| :: Slot("entity", NestedKey(c, u, "subspaces", subspaces[i])))
    + (set i | 0 <= i < |roles| && roles[i] != "" :: Slot("entity", NestedKey(c, u, "roles", roles[i])))
  }

  /** The keys of sendAttributes. */
  function AttributeKeys(c: Codec, u: Uuid, ticket: bool, connection: bool): set<Slot> {
    {Slot("attributes", FieldKey(c, u, "name"))}
    + (if ticket then {Slot("attributes", FieldKey(c, u, "ticket"))} else {})
    + (if connection then {Slot("attributes", FieldKey(c, u, "connection"))} else {})
  }

  /**
   * The announced keys spelled out: the bare uuid, each subspace, each role with a name; name, ticket and connection.
   */
  lemma AnnouncedKeysSpelledOut(c: Codec, u: Uuid, subspaces: seq<string>, roles: seq<string>, ticket: bool,
                                connection: bool, k: Slot)
    ensures k in EntityKeys(c, u, subspaces, roles) <==>
              k.topic == "entity"
              && (k.key == c.show(u)
                  || (exists i :: 0 <= i < |subspaces| && k.key == c.show(u) + "." + "subspaces" + "." + subspaces[i])
                  || (exists i ::
                        0 <= i < |roles| && roles[i] != "" && k.key == c.show(u) + "." + "roles" + "." + roles[i]))
    ensures k in AttributeKeys(c, u, ticket, connection) <==>
              k.topic == "attributes"
              && (k.key == c.show(u) + "." + "name" || (ticket && k.key == c.show(u) + "." + "ticket")
                  || (connection && k.key == c.show(u) + "." + "connection"))
  {
    if k.topic == "entity" {
      assert k == Slot("entity", k.key);
    }
  }

  /** A key with a field is no uuid text. */
  lemma NestedIsNoMarker(c: Codec, u: Uuid, field: string, rest: string)
    requires Canonical(c)
    ensures c.parse(NestedKey(c, u, field, rest)).None?
  {
    assert NestedKey(c, u, field, rest)[|c.show(u)|] == '.';
  }

  /**
   * Everything a client announces about itself is connection-scoped with itself as subject; its marker is printed text.
   */
  lemma AnnouncedKeysAreOwned(c: Codec, u: Uuid, subspaces: seq<string>, roles: seq<string>, ticket: bool,
                              connection: bool)
    requires Canonical(c)
    ensures forall k :: k in EntityKeys(c, u, subspaces, roles) + AttributeKeys(c, u, ticket, connection) ==>
              Owns(c, u, k.topic, k.key) && (k.topic == "entity" && c.parse(k.key).Some? ==> k.key == c.show(u))
  {
    hide FieldKey, NestedKey, SplitSubjectKey;
    FieldKeySplits(c, u, "name", "");
    FieldKeySplits(c, u, "ticket", "");
    FieldKeySplits(c, u, "connection", "");
    forall i | 0 <= i < |subspaces|
      ensures Owns(c, u, "entity", NestedKey(c, u, "subspaces", subspaces[i]))
              && c.parse(NestedKey(c, u, "subspaces", subspaces[i])).None?
    {
      NestedIsNoMarker(c, u, "subspaces", subspaces[i]);
      FieldKeySplits(c, u, "subspaces", subspaces[i]);
    }
    forall i | 0 <= i < |roles|
      ensures Owns(c, u, "entity", NestedKey(c, u, "roles", roles[i]))
              && c.parse(NestedKey(c, u, "roles", roles[i])).None?
    {
      NestedIsNoMarker(c, u, "roles", roles[i]);
      FieldKeySplits(c, u, "roles", roles[i]);
    }
  }

  // ------------------------------------------------------------------ the write filter

  /** A per-client source may not write another subject's connection-scoped key; the zero source may. */
  predicate Permitted(c: Codec, source: Uuid, topic: string, key: string) {
    source == NIL
    || var (scope, subject) := ClassifyKey(c, topic, key);
       !(scope == Connection && subject != NIL && subject != source)
  }

  datatype ParsedOp = ParsedOp(key: string, tombstone: bool)

  /** The pairs that survive, in order. */
  function Kept(c: Codec, source: Uuid, topic: string, ops: seq<ParsedOp>, raws: seq<string>): seq<(ParsedOp, string)>
    requires |ops| == |raws|
  {
    if ops == [] then []
    else
      Kept(c, source, topic, ops[..|ops| - 1], raws[..|ops| - 1])
      + (if Permitted(c, source, topic, ops[|ops| - 1].key) then [(ops[|ops| - 1], raws[|ops| - 1])] else [])
  }

  function Zip(ops: seq<ParsedOp>, raws: seq<string>): seq<(ParsedOp, string)>
    requires |ops| == |raws|
  {
    seq(|ops|, i requires 0 <= i < |ops| => (ops[i], raws[i]))
  }

  /** The positions of the permitted ops, in increasing order. */
  function KeptAt(c: Codec, source: Uuid, topic: string, ops: seq<ParsedOp>): (at: seq<nat>)
    ensures forall j :: 0 <= j < |at| ==> at[j] < |ops|
  {
    if ops == [] then []
    else
      KeptAt(c, source, topic, ops[..|ops| - 1])
      + (if Permitted(c, source, topic, ops[|ops| - 1].key) then [|ops| - 1] else [])
  }

  /**
   * The survivors are the permitted ops and no others, in their order and as often as they came: the j-th survivor is
   * the op at the j-th permitted position, with the raw bytes of that position.
   */
  lemma {:induction false} KeptIsExactlyThePermitted(c: Codec, source: Uuid, topic: string,
                                                     ops: seq<ParsedOp>, raws: seq<string>)
    requires |ops| == |raws|
    ensures var at := KeptAt(c, source, topic, ops);
            && Increasing(at)
            && (forall i: nat :: i in at <==> i < |ops| && Permitted(c, source, topic, ops[i].key))
            && |Kept(c, source, topic, ops, raws)| == |at|
            && forall j :: 0 <= j < |at| ==> Kept(c, source, topic, ops, raws)[j] == (ops[at[j]], raws[at[j]])
  {
    KeptAtIncreases(c, source, topic, ops);
    KeptAtIsThePermitted(c, source, topic, ops);
    hide Permitted;
    if ops != [] {
      var n := |ops| - 1;
      KeptIsExactlyThePermitted(c, source, topic, ops[..n], raws[..n]);
    }
  }

  predicate Increasing(s: seq<nat>) { forall i, j :: 0 <= i < j < |s| ==> s[i] < s[j] }

  lemma AppendIncreasing(s: seq<nat>, n: nat)
    requires Increasing(s) && forall j :: 0 <= j < |s| ==> s[j] < n
    ensures Increasing(s + [n])
  {
  }

  lemma {:induction false} KeptAtIncreases(c: Codec, source: Uuid, topic: string, ops: seq<ParsedOp>)
    ensures Increasing(KeptAt(c, source, topic, ops))
  {
    hide Permitted, Increasing;
    if ops != [] {
      KeptAtIncreases(c, source, topic, ops[..|ops| - 1]);
      AppendIncreasing(KeptAt(c, source, topic, ops[..|ops| - 1]), |ops| - 1);
      assert KeptAt(c, source, topic, ops[..|ops| - 1]) + [] == KeptAt(c, source, topic, ops[..|ops| - 1]);
    } else {
      NothingIncreases();
    }
  }

  lemma NothingIncreases()
    ensures Increasing([])
  {
  }

  lemma {:induction false} KeptAtIsThePermitted(c: Codec, source: Uuid, topic: string, ops: seq<ParsedOp>)
    ensures forall i: nat ::
              i in KeptAt(c, source, topic, ops) <==> i < |ops| && Permitted(c, source, topic, ops[i].key)
  {
    hide Permitted;
    if ops != [] {
      var n := |ops| - 1;
      KeptAtIsThePermitted(c, source, topic, ops[..n]);
      forall i: nat
        ensures i in KeptAt(c, source, topic, ops) <==> i < |ops| && Permitted(c, source, topic, ops[i].key)
      {
        var before := KeptAt(c, source, topic, ops[..n]);
        var more := if Permitted(c, source, topic, ops[n].key) then [n] else [];
        assert i in before <==> i < n && Permitted(c, source, topic, ops[..n][i].key);
        assert i in before + more <==> i in before || i in more;
      }
    }
  }

  /** When nothing is dropped the batch comes through as it is, and otherwise it gets shorter. */
  lemma {:induction false} NothingDroppedNothingChanged(c: Codec, source: Uuid, topic: string,
                                                        ops: seq<ParsedOp>, raws: seq<string>)
    requires |ops| == |raws|
    ensures |Kept(c, source, topic, ops, raws)| <= |ops|
    ensures |Kept(c, source, topic, ops, raws)| == |ops| ==> Kept(c, source, topic, ops, raws) == Zip(ops, raws)
  {
    hide Permitted;
    if ops != [] {
      var n := |ops| - 1;
      NothingDroppedNothingChanged(c, source, topic, ops[..n], raws[..n]);
    }
  }

  /** Filters both slices in place, as keptOps := ops[:0] and keptRaw := rawOps[:0] do. */
  method FilterInPlace(c: Codec, source: Uuid, topic: string, ops: array<ParsedOp>, raws: array<string>)
    returns (kept: nat)
    requires ops.Length == raws.Length
    modifies ops, raws
    ensures kept <= ops.Length
    ensures Zip(ops[..kept], raws[..kept]) == Kept(c, source, topic, old(ops[..]), old(raws[..]))
  {
    ghost var o, r := ops[..], raws[..];
    kept := 0;
    for i := 0 to ops.Length
      invariant kept <= i && forall j :: i <= j < ops.Length ==> ops[j] == o[j] && raws[j] == r[j]
      invariant |Kept(c, source, topic, o[..i], r[..i])| == kept
      invariant forall j :: 0 <= j < kept ==> (ops[j], raws[j]) == Kept(c, source, topic, o[..i], r[..i])[j]
    {
      hide Permitted, Kept;
      KeptStep(c, source, topic, o, r, i);
      if Permitted(c, source, topic, ops[i].key) {
        ops[kept], raws[kept] := ops[i], raws[i];
        kept := kept + 1;
      }
    }
    assert o[..ops.Length] == o && r[..ops.Length] == r;
  }

  lemma KeptStep(c: Codec, source: Uuid, topic: string, ops: seq<ParsedOp>, raws: seq<string>, i: nat)
    requires |ops| == |raws| && i < |ops|
    ensures Kept(c, source, topic, ops[..i + 1], raws[..i + 1])
            == Kept(c, source, topic, ops[..i], raws[..i])
               + (if Permitted(c, source, topic, ops[i].key) then [(ops[i], raws[i])] else [])
  {
    assert ops[..i + 1][..i] == ops[..i] && raws[..i + 1][..i] == raws[..i];
  }
}
