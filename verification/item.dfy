/** Credential items as the vault's command line returns them: what identifies a usable
    one, and the normal form two items are compared by. */
module VaultItem {
  import opened Domain
  import opened Json

  const U64_MAX: int := 0xFFFF_FFFF_FFFF_FFFF

  datatype Mapping = Mapping(vault: string, item: string, field: string)

  // ----------------------------------------------------------------------- inspection

  /** Every field is identified once; the target holds a usable value. */
  function Scan(fields: seq<Json>, field: string, ids: set<string>, target: Option<string>): Result<Option<string>> {
    if fields == [] then Ok(target)
    else
      var f := fields[0];
      var id := GetText(f, "id");
      if id.None? || id.value in ids then Err(NewError(ErrorCode.CredentialUnavailable))
      else if id.value != field then Scan(fields[1..], field, ids + {id.value}, target)
      else if GetText(f, "type") != Some("STRING") && GetText(f, "type") != Some("CONCEALED") then
        Err(NewError(ErrorCode.Unsupported))
      else if GetText(f, "value").None? || GetText(f, "value") == Some("") then
        Err(NewError(ErrorCode.CredentialUnavailable))
      else Scan(fields[1..], field, ids + {id.value}, GetText(f, "value"))
  }

  function VersionOf(item: Json): Option<nat> {
    match Get(item, "version")
    case Some(Number(n)) => if 0 < n <= U64_MAX then Some(n) else None
    case _ => None
  }

  predicate Addressed(item: Json, m: Mapping) {
    && GetText(item, "id") == Some(m.item)
    && Get(item, "vault").Some? && GetText(Get(item, "vault").value, "id") == Some(m.vault)
  }

  /** The item's generation and secret. */
  function Inspect(item: Json, m: Mapping): Result<(nat, string)> {
    if !Addressed(item, m) || VersionOf(item).None? || GetList(item, "fields").None? then
      Err(NewError(ErrorCode.CredentialUnavailable))
    else match Scan(GetList(item, "fields").value, m.field, {}, None)
      case Err(e) => Err(e)
      case Ok(None) => Err(NewError(ErrorCode.CredentialUnavailable))
      case Ok(Some(value)) => Ok((VersionOf(item).value, value))
  }

  function Keys(fields: seq<Json>): set<Option<string>> {
    if fields == [] then {} else {Key(fields[0])} + Keys(fields[1..])
  }

  predicate DistinctKeys(fields: seq<Json>) {
    fields == [] || (Key(fields[0]) !in Keys(fields[1..]) && DistinctKeys(fields[1..]))
  }

  predicate Usable(f: Json, field: string, value: string) {
    && Key(f) == Some(field) && GetText(f, "value") == Some(value) && value != ""
    && (GetText(f, "type") == Some("STRING") || GetText(f, "type") == Some("CONCEALED"))
  }

  predicate Holds(fields: seq<Json>, field: string, value: string) {
    fields != [] && (Usable(fields[0], field, value) || Holds(fields[1..], field, value))
  }

  /** Every field is identified, no two alike, and the target is usable. */
  predicate Sound(fields: seq<Json>, field: string, value: string) {
    None !in Keys(fields) && DistinctKeys(fields) && Holds(fields, field, value)
  }

  /** What is left to scan fits what was seen. */
  predicate Fits(fields: seq<Json>, ids: set<string>) {
    None !in Keys(fields) && DistinctKeys(fields) && forall id :: id in ids ==> Some(id) !in Keys(fields)
  }

  lemma {:induction false} HeldIsKeyed(fields: seq<Json>, field: string, value: string)
    requires Holds(fields, field, value)
    ensures Some(field) in Keys(fields)
  {
    if !Usable(fields[0], field, value) { HeldIsKeyed(fields[1..], field, value); }
  }

  lemma {:induction false} ScanMeans(fields: seq<Json>, field: string, ids: set<string>, target: Option<string>, r: Option<string>)
    requires target.Some? ==> field in ids
    ensures Scan(fields, field, ids, target) == Ok(r) <==>
      Fits(fields, ids) &&
      if Some(field) in Keys(fields) then r.Some? && Holds(fields, field, r.value) else r == target
  {
    if fields != [] {
      var f := fields[0];
      var id := Key(f);
      if id.Some? {
        var next := if id.value == field then GetText(f, "value") else target;
        ScanMeans(fields[1..], field, ids + {id.value}, next, r);
        assert Fits(fields, ids) <==> id.value !in ids && Fits(fields[1..], ids + {id.value}) by { FitsFirst(fields, ids); }
        if id.value == field {
          if r.Some? && Holds(fields[1..], field, r.value) { HeldIsKeyed(fields[1..], field, r.value); }
        }
      }
    }
  }

  lemma FitsFirst(fields: seq<Json>, ids: set<string>)
    requires fields != [] && Key(fields[0]).Some?
    ensures var id := Key(fields[0]).value;
      Fits(fields, ids) <==> id !in ids && Fits(fields[1..], ids + {id})
  {
  }

  /** An item is accepted exactly when it is the addressed one, versioned, and sound; then its
      generation and secret are what it holds. */
  lemma InspectMeans(item: Json, m: Mapping, generation: nat, value: string)
    ensures Inspect(item, m) == Ok((generation, value)) <==>
      && GetText(item, "id") == Some(m.item)
      && Get(item, "vault").Some? && GetText(Get(item, "vault").value, "id") == Some(m.vault)
      && Get(item, "version") == Some(Number(generation)) && 0 < generation <= 0xFFFF_FFFF_FFFF_FFFF
      && GetList(item, "fields").Some? && Sound(GetList(item, "fields").value, m.field, value)
  {
    if GetList(item, "fields").Some? {
      var fields := GetList(item, "fields").value;
      ScanMeans(fields, m.field, {}, None, Some(value));
      ScanMeans(fields, m.field, {}, None, None);
      if Holds(fields, m.field, value) { HeldIsKeyed(fields, m.field, value); }
      hide Scan, Holds, Keys, DistinctKeys;
    }
  }

  // -------------------------------------------------------------- unsupported content

  function Lower(s: string): string {
    if s == "" then ""
    else [if 'A' <= s[0] <= 'Z' then s[0] + 32 as char else s[0]] + Lower(s[1..])
  }

  predicate Contains(s: string, part: string) {
    part <= s || (s != "" && Contains(s[1..], part))
  }

  predicate UnsupportedMember(name: string, value: Json) {
    var key := Lower(name);
    || Contains(key, "passkey")
    || (key == "files" && value != List([]))
    || (key == "type" && value.Text? && Lower(value.text) in {"file", "passkey"})
  }

  /** Anything in the item, at any depth, that an update through JSON would lose. */
  predicate Unsupported(item: Json)
    decreases item
  {
    match item
    case Object(members) =>
      exists key :: key in members && (UnsupportedMember(key, members[key]) || Unsupported(members[key]))
    case List(items) => exists i :: 0 <= i < |items| && Unsupported(items[i])
    case _ => false
  }

  // ---------------------------------------------------------------------- normal form

  predicate EmptyDate(f: Json) {
    && GetText(f, "type") == Some("DATE")
    && (Get(f, "value").None? || Get(f, "value").value.Null? || GetText(f, "value") == Some(""))
  }

  function Retained(fields: seq<Json>): seq<Json> {
    if fields == [] then []
    else if EmptyDate(fields[0]) then Retained(fields[1..])
    else [fields[0]] + Retained(fields[1..])
  }

  predicate Valueless(f: Json) { Get(f, "value").None? || Get(f, "value").value.Null? }

  /** A missing or null value becomes the empty text; only an object can be given one. */
  function Filled(fields: seq<Json>): Option<seq<Json>> {
    if fields == [] then Some([])
    else
      var rest := Filled(fields[1..]);
      if rest.None? || (Valueless(fields[0]) && !fields[0].Object?) then None
      else Some([if Valueless(fields[0]) then Set(fields[0], "value", Text("")) else fields[0]] + rest.value)
  }

  /** Members the server rewrites on every edit. */
  const SERVER_OWNED := {"version", "updated_at", "last_edited_by"}

  function Arranged(members: map<string, Json>, fields: seq<Json>): Json {
    var with := members["fields" := List(Sorted(fields))];
    if "sections" in with && with["sections"].List? then
      Object(with["sections" := List(Sorted(with["sections"].items))])
    else Object(with)
  }

  function Normal(item: Json): Option<Json> {
    if GetList(item, "fields").None? then None
    else
      var filled := Filled(Retained(GetList(item, "fields").value));
      if filled.None? then None
      else Some(Arranged(item.members - SERVER_OWNED, filled.value))
  }

  /** Nothing in the list would be dropped or filled. */
  predicate Settled(fields: seq<Json>) {
    forall f :: f in fields ==> !EmptyDate(f) && !Valueless(f)
  }

  lemma {:induction false} SettledStays(fields: seq<Json>)
    requires Settled(fields)
    ensures Retained(fields) == fields && Filled(fields) == Some(fields)
  {
    if fields != [] {
      SettledStays(fields[1..]);
      assert fields == [fields[0]] + fields[1..];
    }
  }

  lemma {:induction false} FilledSettles(fields: seq<Json>)
    requires Filled(Retained(fields)).Some?
    ensures Settled(Filled(Retained(fields)).value)
  {
    if fields != [] {
      var rest := Retained(fields[1..]);
      if !EmptyDate(fields[0]) {
        assert Retained(fields)[1..] == rest;
      }
      FilledSettles(fields[1..]);
    }
  }

  lemma SortedSettled(fields: seq<Json>)
    requires Settled(fields)
    ensures Settled(Sorted(fields))
  {
    SortedPermutes(fields);
    forall f | f in Sorted(fields)
      ensures f in fields
    {
      assert f in multiset(Sorted(fields));
    }
  }

  /** Normalizing is idempotent. */
  lemma NormalIdempotent(item: Json)
    requires Normal(item).Some?
    ensures Normal(Normal(item).value) == Normal(item)
  {
    var fields := GetList(item, "fields").value;
    var filled := Filled(Retained(fields)).value;
    FilledSettles(fields);
    SortedSettled(filled);
    SettledStays(Sorted(filled));
    SortedOrdered(filled);
    OrderedStays(Sorted(filled));
    var base := item.members - SERVER_OWNED;
    if "sections" in base && base["sections"].List? {
      SortedOrdered(base["sections"].items);
      OrderedStays(Sorted(base["sections"].items));
    }
    hide Sorted, Retained, Filled, Settled;
    ArrangedTwice(base, filled);
  }

  lemma ArrangedTwice(base: map<string, Json>, fields: seq<Json>)
    requires base - SERVER_OWNED == base && Sorted(Sorted(fields)) == Sorted(fields)
    requires "sections" in base && base["sections"].List? ==>
      Sorted(Sorted(base["sections"].items)) == Sorted(base["sections"].items)
    ensures var once := Arranged(base, fields);
      && GetList(once, "fields") == Some(Sorted(fields))
      && once.members - SERVER_OWNED == once.members
      && Arranged(once.members, Sorted(fields)) == once
  {
    hide Sorted;
    var once := Arranged(base, fields);
    assert forall k :: k in SERVER_OWNED ==> k !in base - SERVER_OWNED;
    assert once.members - SERVER_OWNED == once.members;
    assert Arranged(once.members, Sorted(fields)).members == once.members;
  }

  // ---------------------------------------------------------------- the field update

  /** The first field so identified is given the value. */
  function SetFirst(fields: seq<Json>, field: string, value: string): seq<Json> {
    if fields == [] then []
    else if Key(fields[0]) == Some(field) then [Set(fields[0], "value", Text(value))] + fields[1..]
    else [fields[0]] + SetFirst(fields[1..], field, value)
  }

  function Retargeted(f: Json, field: string, value: string): Json {
    if Key(f) == Some(field) then Set(f, "value", Text(value)) else f
  }

  /** Every field so identified. */
  function SetTarget(fields: seq<Json>, field: string, value: string): seq<Json> {
    if fields == [] then [] else [Retargeted(fields[0], field, value)] + SetTarget(fields[1..], field, value)
  }

  /** The item sent to be stored: empty dates dropped, the target changed. */
  function Edited(item: Json, field: string, value: string): Json
    requires GetList(item, "fields").Some?
  {
    Set(item, "fields", List(SetFirst(Retained(GetList(item, "fields").value), field, value)))
  }

  /** A normal form with only the target's value changed. */
  function Retarget(item: Json, field: string, value: string): Json
    requires GetList(item, "fields").Some?
  {
    Set(item, "fields", List(SetTarget(GetList(item, "fields").value, field, value)))
  }

  lemma {:induction false} RetainedKeys(fields: seq<Json>)
    ensures Keys(Retained(fields)) <= Keys(fields)
    ensures DistinctKeys(fields) ==> DistinctKeys(Retained(fields))
  {
    if fields != [] {
      RetainedKeys(fields[1..]);
      if !EmptyDate(fields[0]) { assert Retained(fields)[1..] == Retained(fields[1..]); }
    }
  }

  lemma {:induction false} SetAbsent(fields: seq<Json>, field: string, value: string)
    requires Some(field) !in Keys(fields)
    ensures SetTarget(fields, field, value) == fields
  {
    if fields != [] {
      SetAbsent(fields[1..], field, value);
      assert fields == [fields[0]] + fields[1..];
    }
  }

  lemma {:induction false} FirstIsEvery(fields: seq<Json>, field: string, value: string)
    requires DistinctKeys(fields)
    ensures SetFirst(fields, field, value) == SetTarget(fields, field, value)
  {
    if fields != [] {
      if Key(fields[0]) == Some(field) {
        SetAbsent(fields[1..], field, value);
      } else {
        FirstIsEvery(fields[1..], field, value);
      }
    }
  }

  /** Dropping, filling and sorting each commute with the update. */
  lemma {:induction false} RetainedCommutes(fields: seq<Json>, field: string, value: string)
    requires value != ""
    ensures Retained(SetTarget(Retained(fields), field, value)) == SetTarget(Retained(fields), field, value)
  {
    if fields != [] {
      RetainedCommutes(fields[1..], field, value);
      if !EmptyDate(fields[0]) {
        var rest := SetTarget(Retained(fields[1..]), field, value);
        assert Retained(fields)[1..] == Retained(fields[1..]);
        assert ([Retargeted(fields[0], field, value)] + rest)[1..] == rest;
      }
    }
  }

  lemma FilledFirst(f: Json, rest: seq<Json>)
    requires f.Object?
    ensures Filled([f] + rest) ==
      if Filled(rest).None? then None
      else Some([if Valueless(f) then Set(f, "value", Text("")) else f] + Filled(rest).value)
  {
    assert ([f] + rest)[1..] == rest;
  }

  lemma {:induction false} FilledCommutes(fields: seq<Json>, field: string, value: string)
    requires None !in Keys(fields)
    ensures Filled(fields).Some?
    ensures Filled(SetTarget(fields, field, value)) == Some(SetTarget(Filled(fields).value, field, value))
  {
    if fields != [] {
      FilledCommutes(fields[1..], field, value);
      FilledFirst(Retargeted(fields[0], field, value), SetTarget(fields[1..], field, value));
      var first := if Valueless(fields[0]) then Set(fields[0], "value", Text("")) else fields[0];
      assert Filled(fields).value[1..] == Filled(fields[1..]).value;
      assert Key(fields[0]) == Some(field) ==> Set(first, "value", Text(value)) == Set(fields[0], "value", Text(value));
    }
  }

  lemma SetTargetFirst(f: Json, rest: seq<Json>, field: string, value: string)
    ensures SetTarget([f] + rest, field, value) == [Retargeted(f, field, value)] + SetTarget(rest, field, value)
  {
    assert ([f] + rest)[1..] == rest;
  }

  lemma RetargetKeeps(f: Json, field: string, value: string)
    ensures Key(Retargeted(f, field, value)) == Key(f)
  {
  }

  lemma {:induction false} InsertCommutes(x: Json, s: seq<Json>, field: string, value: string)
    ensures SetTarget(Insert(x, s), field, value) == Insert(Retargeted(x, field, value), SetTarget(s, field, value))
  {
    RetargetKeeps(x, field, value);
    if s == [] || Before(x, s[0]) {
      SetTargetFirst(x, s, field, value);
    } else {
      InsertCommutes(x, s[1..], field, value);
      SetTargetFirst(s[0], Insert(x, s[1..]), field, value);
    }
    if s != [] { RetargetKeeps(s[0], field, value); }
  }

  lemma {:induction false} SortedCommutes(s: seq<Json>, field: string, value: string)
    ensures Sorted(SetTarget(s, field, value)) == SetTarget(Sorted(s), field, value)
  {
    if s != [] {
      SortedCommutes(s[1..], field, value);
      InsertCommutes(s[0], Sorted(s[1..]), field, value);
      hide Insert;
    }
  }

  lemma ArrangedCommutes(members: map<string, Json>, kept: seq<Json>, filled: seq<Json>, field: string, value: string)
    ensures Arranged(members["fields" := List(kept)] - SERVER_OWNED, SetTarget(filled, field, value))
      == Retarget(Arranged(members - SERVER_OWNED, filled), field, value)
  {
    SortedCommutes(filled, field, value);
    hide Sorted, SetTarget;
    var base, with := members - SERVER_OWNED, members["fields" := List(kept)] - SERVER_OWNED;
    assert with == base["fields" := List(kept)];
    var after := List(Sorted(SetTarget(filled, field, value)));
    assert with["fields" := after] == base["fields" := after];
    var left := Arranged(with, SetTarget(filled, field, value));
    var right := Retarget(Arranged(base, filled), field, value);
    assert left.members == right.members;
  }

  /** Normalizing commutes with the update: the edited item's normal form is the old one's
      with only the target's value changed. */
  lemma NormalCommutes(item: Json, m: Mapping, generation: nat, was: string, value: string)
    requires Inspect(item, m) == Ok((generation, was)) && value != ""
    ensures Normal(item).Some? && GetList(Normal(item).value, "fields").Some?
    ensures GetList(item, "fields").Some?
    ensures Normal(Edited(item, m.field, value)) == Some(Retarget(Normal(item).value, m.field, value))
  {
    InspectMeans(item, m, generation, was);
    var fields := GetList(item, "fields").value;
    var kept := Retained(fields);
    RetainedKeys(fields);
    FirstIsEvery(kept, m.field, value);
    RetainedCommutes(fields, m.field, value);
    FilledCommutes(kept, m.field, value);
    hide Sound, Inspect, Retained, Filled, SetTarget, SetFirst, Sorted, Arranged;
    ArrangedCommutes(item.members, SetTarget(kept, m.field, value), Filled(kept).value, m.field, value);
  }

  // ------------------------------------------------------- what equal normal forms mean

  /** A field without a value, or with an empty one. */
  predicate Hollow(f: Json) {
    Get(f, "value") == None || Get(f, "value") == Some(Null) || Get(f, "value") == Some(Text(""))
  }

  /** The field afterwards: the target has the value, and any other has the one it had, or none where
      it had none; nothing else of it moved. */
  predicate Becomes(f: Json, g: Json, field: string, value: string) {
    && f.Object? && g.Object? && f.members - {"value"} == g.members - {"value"}
    && if GetText(f, "id") == Some(field) then Get(g, "value") == Some(Text(value))
       else Get(g, "value") == Get(f, "value") || (Hollow(f) && Hollow(g))
  }

  ghost predicate Follows(f: Json, after: seq<Json>, field: string, value: string) {
    exists g :: g in after && !Dateless(g) && Becomes(f, g, field, value)
  }

  ghost predicate Precedes(before: seq<Json>, g: Json, field: string, value: string) {
    exists f :: f in before && !Dateless(f) && Becomes(f, g, field, value)
  }

  /** Dates without content aside, every field becomes one of those afterwards, and every one of
      those was one before. */
  ghost predicate Matched(before: seq<Json>, after: seq<Json>, field: string, value: string) {
    && (forall f :: f in before && !Dateless(f) ==> Follows(f, after, field, value))
    && forall g :: g in after && !Dateless(g) ==> Precedes(before, g, field, value)
  }

  /** The same sections, in any order of their identifiers. */
  ghost predicate SameSections(before: Json, after: Json) {
    var s, t := Get(before, "sections"), Get(after, "sections");
    s == t || (s.Some? && t.Some? && s.value.List? && t.value.List? && SamePicks(s.value.items, t.value.items))
  }

  function Fill(f: Json): Json
    requires f.Object?
  {
    if Valueless(f) then Set(f, "value", Text("")) else f
  }

  lemma BecomesMeans(f: Json, g: Json, field: string, value: string)
    requires f.Object? && g.Object? && value != ""
    ensures Becomes(f, g, field, value) <==> Fill(g) == Retargeted(Fill(f), field, value)
  {
    var x, y := Retargeted(Fill(f), field, value), Fill(g);
    assert x.members - {"value"} == f.members - {"value"} && y.members - {"value"} == g.members - {"value"};
    assert x == y <==> x.members - {"value"} == y.members - {"value"} && Get(x, "value") == Get(y, "value") by {
      assert "value" in x.members ==> x.members == (x.members - {"value"})["value" := x.members["value"]];
      assert "value" in y.members ==> y.members == (y.members - {"value"})["value" := y.members["value"]];
    }
  }

  /** What is kept and filled, told by identifier. */
  ghost predicate KeptUnder(fields: seq<Json>, key: Option<string>, kept: seq<Json>) {
    && (forall f :: f in fields && !Dateless(f) && Key(f) == key ==> f.Object? && kept == [Fill(f)])
    && (kept == [] || exists f :: f in fields && !Dateless(f) && Key(f) == key)
  }

  lemma {:induction false} KeyedFields(fields: seq<Json>)
    ensures forall f :: f in fields ==> Key(f) in Keys(fields)
  {
    if fields != [] { KeyedFields(fields[1..]); }
  }

  lemma KeptFirst(f: Json, rest: seq<Json>, key: Option<string>, kept: seq<Json>)
    requires KeptUnder(rest, key, kept) && f.Object? && forall g :: g in rest ==> Key(g) != Key(f)
    ensures KeptUnder([f] + rest, key, if Dateless(f) then kept else (if Key(f) == key then [Fill(f)] else []) + kept)
  {
    var all := [f] + rest;
    assert forall g :: g in all <==> g == f || g in rest;
    assert f in all;
    hide Dateless, Key, Fill;
    assert [] + kept == kept;
    if !Dateless(f) && Key(f) == key { assert kept == [] && [Fill(f)] + kept == [Fill(f)]; }
  }

  lemma {:induction false} KeptFields(fields: seq<Json>, key: Option<string>)
    requires None !in Keys(fields) && DistinctKeys(fields)
    ensures Filled(Retained(fields)).Some? && KeptUnder(fields, key, Pick(Filled(Retained(fields)).value, key))
  {
    if fields != [] {
      var f, rest := fields[0], fields[1..];
      KeptFields(rest, key);
      KeyedFields(rest);
      KeptFirst(f, rest, key, Pick(Filled(Retained(rest)).value, key));
      assert fields == [f] + rest;
      hide KeptUnder;
      if !Dateless(f) {
        FilledFirst(f, Retained(rest));
        PickFirst(Fill(f), Filled(Retained(rest)).value, key);
        assert Key(Fill(f)) == Key(f);
      }
    }
  }

  lemma {:induction false} PickCommutes(s: seq<Json>, key: Option<string>, field: string, value: string)
    ensures Pick(SetTarget(s, field, value), key) == SetTarget(Pick(s, key), field, value)
  {
    if s != [] {
      PickCommutes(s[1..], key, field, value);
      RetargetKeeps(s[0], field, value);
      PickFirst(Retargeted(s[0], field, value), SetTarget(s[1..], field, value), key);
      if Key(s[0]) == key {
        SetTargetFirst(s[0], Pick(s[1..], key), field, value);
      } else {
        assert [] + Pick(s[1..], key) == Pick(s[1..], key);
      }
      hide Key, Retargeted;
    }
  }

  lemma BecomesKeeps(f: Json, g: Json, field: string, value: string)
    ensures Becomes(f, g, field, value) ==> Key(f) == Key(g)
  {
    if Becomes(f, g, field, value) {
      assert f.members - {"value"} == g.members - {"value"};
      assert "id" in f.members <==> "id" in f.members - {"value"};
      assert "id" in g.members <==> "id" in g.members - {"value"};
    }
  }

  ghost predicate MatchedUnder(before: seq<Json>, after: seq<Json>, key: Option<string>, field: string, value: string) {
    && (forall f :: f in before && !Dateless(f) && Key(f) == key ==> Follows(f, after, field, value))
    && forall g :: g in after && !Dateless(g) && Key(g) == key ==> Precedes(before, g, field, value)
  }

  lemma KeyMatches(before: seq<Json>, after: seq<Json>, key: Option<string>, b: seq<Json>, a: seq<Json>, field: string, value: string)
    requires KeptUnder(before, key, b) && KeptUnder(after, key, a) && value != ""
    ensures a == SetTarget(b, field, value) <==> MatchedUnder(before, after, key, field, value)
  {
    forall f, g
      ensures Becomes(f, g, field, value) ==> Key(f) == Key(g) && f.Object? && g.Object?
    {
      BecomesKeeps(f, g, field, value);
    }
    if b != [] && a != [] {
      var f :| f in before && !Dateless(f) && Key(f) == key;
      var g :| g in after && !Dateless(g) && Key(g) == key;
      forall x, y | x in before && !Dateless(x) && Key(x) == key && y in after && !Dateless(y) && Key(y) == key
        ensures Becomes(x, y, field, value) <==> Fill(g) == Retargeted(Fill(f), field, value)
      {
        BecomesMeans(x, y, field, value);
      }
      assert SetTarget(b, field, value) == [Retargeted(Fill(f), field, value)];
    }
    hide Becomes, Key, Dateless, Fill, Retargeted;
  }

  /** The kept fields are alike exactly when they match. */
  lemma FieldsMatch(before: seq<Json>, after: seq<Json>, field: string, value: string)
    requires None !in Keys(before) && DistinctKeys(before) && None !in Keys(after) && DistinctKeys(after) && value != ""
    ensures Filled(Retained(before)).Some? && Filled(Retained(after)).Some?
    ensures SamePicks(Filled(Retained(after)).value, SetTarget(Filled(Retained(before)).value, field, value))
      <==> Matched(before, after, field, value)
  {
    KeptFields(before, None);
    KeptFields(after, None);
    var b, a := Filled(Retained(before)).value, Filled(Retained(after)).value;
    forall key
      ensures Pick(a, key) == Pick(SetTarget(b, field, value), key) <==> MatchedUnder(before, after, key, field, value)
    {
      KeptFields(before, key);
      KeptFields(after, key);
      PickCommutes(b, key, field, value);
      KeyMatches(before, after, key, Pick(b, key), Pick(a, key), field, value);
    }
    hide Pick, Filled, Retained, SetTarget, Follows, Precedes, Dateless, KeptUnder, Keys, DistinctKeys;
    if forall key :: MatchedUnder(before, after, key, field, value) {
      forall f | f in before && !Dateless(f)
        ensures Follows(f, after, field, value)
      {
        assert MatchedUnder(before, after, Key(f), field, value);
      }
      forall g | g in after && !Dateless(g)
        ensures Precedes(before, g, field, value)
      {
        assert MatchedUnder(before, after, Key(g), field, value);
      }
    }
  }

  lemma ArrangedReads(base: map<string, Json>, fields: seq<Json>)
    ensures GetList(Arranged(base, fields), "fields") == Some(Sorted(fields))
    ensures forall k :: k != "fields" && k != "sections" ==>
      Get(Arranged(base, fields), k) == if k in base then Some(base[k]) else None
    ensures Get(Arranged(base, fields), "sections") ==
      if "sections" in base && base["sections"].List? then Some(List(Sorted(base["sections"].items))) else Get(Object(base), "sections")
  {
    hide Sorted;
  }

  /** Objects are the same when they read the same. */
  lemma SameReads(x: Json, y: Json)
    requires x.Object? && y.Object?
    ensures x == y <==> forall k :: Get(x, k) == Get(y, k)
  {
    if forall k :: Get(x, k) == Get(y, k) {
      forall k: string
        ensures k in x.members <==> k in y.members
        ensures k in x.members ==> x.members[k] == y.members[k]
      {
        assert Get(x, k) == Get(y, k);
      }
      assert x.members == y.members;
    }
  }

  /** No member outside the server's own moved. */
  ghost predicate SameOutside(before: Json, after: Json) {
    forall k :: k != "version" && k != "updated_at" && k != "last_edited_by" && k != "fields" && k != "sections" ==>
      Get(after, k) == Get(before, k)
  }

  /** The normal form after a write is the one before with the target changed exactly when nothing
      outside the server's own moved: of the members none, and of the fields only the target's value,
      whatever order they come in. */
  lemma OnlyTheTargetMoves(before: Json, after: Json, m: Mapping, generation: nat, was: string, next: nat, value: string)
    requires Inspect(before, m) == Ok((generation, was)) && Inspect(after, m) == Ok((next, value))
    ensures GetList(before, "fields").Some? && GetList(after, "fields").Some?
    ensures Normal(before).Some? && GetList(Normal(before).value, "fields").Some?
    ensures Normal(after) == Some(Retarget(Normal(before).value, m.field, value)) <==>
      && SameOutside(before, after) && SameSections(before, after)
      && Matched(GetList(before, "fields").value, GetList(after, "fields").value, m.field, value)
  {
    InspectMeans(before, m, generation, was);
    InspectMeans(after, m, next, value);
    var held, kept := GetList(before, "fields").value, GetList(after, "fields").value;
    HeldIsUsable(kept, m.field, value);
    FieldsMatch(held, kept, m.field, value);
    hide Inspect, Sound, Retained, Filled, SetTarget, Sorted, Arranged, Matched, SameSections, SameOutside;
    NormalSame(before, after, Filled(Retained(held)).value, Filled(Retained(kept)).value, m.field, value);
  }

  lemma HeldIsUsable(fields: seq<Json>, field: string, value: string)
    requires Sound(fields, field, value)
    ensures value != ""
  {
    HoldsSome(fields, field, value);
  }

  lemma {:induction false} HoldsSome(fields: seq<Json>, field: string, value: string)
    requires Holds(fields, field, value)
    ensures value != ""
  {
    if !Usable(fields[0], field, value) { HoldsSome(fields[1..], field, value); }
  }

  lemma SectionsSame(before: Json, after: Json, b: seq<Json>, a: seq<Json>)
    requires before.Object? && after.Object?
    ensures SameSections(before, after) <==>
      Get(Arranged(after.members - SERVER_OWNED, a), "sections") == Get(Arranged(before.members - SERVER_OWNED, b), "sections")
  {
    ArrangedReads(after.members - SERVER_OWNED, a);
    ArrangedReads(before.members - SERVER_OWNED, b);
    var s, t := Get(before, "sections"), Get(after, "sections");
    if s.Some? && s.value.List? && t.Some? && t.value.List? { SortedSame(s.value.items, t.value.items); }
    hide Sorted, Arranged, SamePicks;
  }

  lemma FieldsSame(before: map<string, Json>, after: map<string, Json>, b: seq<Json>, a: seq<Json>, field: string, value: string)
    ensures GetList(Arranged(before, b), "fields").Some?
    ensures SamePicks(a, SetTarget(b, field, value)) <==>
      Get(Arranged(after, a), "fields") == Get(Retarget(Arranged(before, b), field, value), "fields")
  {
    ArrangedReads(after, a);
    ArrangedReads(before, b);
    SortedCommutes(b, field, value);
    SortedSame(a, SetTarget(b, field, value));
    hide Sorted, Arranged, SamePicks, SetTarget;
  }

  lemma OthersRead(item: Json, fields: seq<Json>, k: string)
    requires item.Object? && k != "fields" && k != "sections"
    ensures Get(Arranged(item.members - SERVER_OWNED, fields), k) == if k in SERVER_OWNED then None else Get(item, k)
  {
    ArrangedReads(item.members - SERVER_OWNED, fields);
    hide Arranged;
  }

  lemma NormalSame(before: Json, after: Json, b: seq<Json>, a: seq<Json>, field: string, value: string)
    requires before.Object? && after.Object?
    ensures GetList(Arranged(before.members - SERVER_OWNED, b), "fields").Some?
    ensures Arranged(after.members - SERVER_OWNED, a) == Retarget(Arranged(before.members - SERVER_OWNED, b), field, value) <==>
      SameOutside(before, after) && SameSections(before, after) && SamePicks(a, SetTarget(b, field, value))
  {
    SectionsSame(before, after, b, a);
    FieldsSame(before.members - SERVER_OWNED, after.members - SERVER_OWNED, b, a, field, value);
    var x, y := Arranged(after.members - SERVER_OWNED, a), Arranged(before.members - SERVER_OWNED, b);
    hide SameSections, SamePicks;
    forall k | k != "fields" && k != "sections"
      ensures Get(x, k) == (if k in SERVER_OWNED then None else Get(after, k))
      ensures Get(Retarget(y, field, value), k) == if k in SERVER_OWNED then None else Get(before, k)
    {
      OthersRead(after, a, k);
      OthersRead(before, b, k);
      hide Arranged, SetTarget;
    }
    hide Arranged, SetTarget;
    SameReads(x, Retarget(y, field, value));
  }

  // ------------------------------------------------------------- what an edit proposes

  /** A field without content that is a date. */
  predicate Dateless(f: Json) {
    GetText(f, "type") == Some("DATE")
    && (Get(f, "value") == None || Get(f, "value") == Some(Null) || Get(f, "value") == Some(Text("")))
  }

  /** The field with its value replaced, and nothing else of it. */
  ghost predicate Revalued(f: Json, g: Json, value: string) {
    f.Object? && g.Object? && g.members == f.members["value" := Text(value)]
  }

  /** What becomes of the fields: dates without content go, the target takes the value, and the others
      stay as and where they are. */
  ghost predicate Rewritten(fields: seq<Json>, edited: seq<Json>, field: string, value: string) {
    if fields == [] then edited == []
    else if Dateless(fields[0]) then Rewritten(fields[1..], edited, field, value)
    else
      && edited != []
      && (if GetText(fields[0], "id") == Some(field) then Revalued(fields[0], edited[0], value) else edited[0] == fields[0])
      && Rewritten(fields[1..], edited[1..], field, value)
  }

  lemma {:induction false} TargetsRewritten(fields: seq<Json>, field: string, value: string)
    requires None !in Keys(fields)
    ensures Rewritten(fields, SetTarget(Retained(fields), field, value), field, value)
  {
    if fields != [] {
      TargetsRewritten(fields[1..], field, value);
      if !EmptyDate(fields[0]) {
        assert Retained(fields)[1..] == Retained(fields[1..]);
        var edited := SetTarget(Retained(fields), field, value);
        assert edited[1..] == SetTarget(Retained(fields[1..]), field, value);
      }
      assert EmptyDate(fields[0]) <==> Dateless(fields[0]);
    }
  }

  /** The edit proposed for a usable item is the item itself, with its fields so rewritten. */
  lemma EditMeans(item: Json, m: Mapping, generation: nat, was: string, value: string)
    requires Inspect(item, m) == Ok((generation, was)) && value != ""
    ensures GetList(item, "fields").Some? && GetList(Edited(item, m.field, value), "fields").Some?
    ensures Rewritten(GetList(item, "fields").value, GetList(Edited(item, m.field, value), "fields").value, m.field, value)
    ensures forall k :: k != "fields" ==> Get(Edited(item, m.field, value), k) == Get(item, k)
  {
    InspectMeans(item, m, generation, was);
    var fields := GetList(item, "fields").value;
    RetainedKeys(fields);
    FirstIsEvery(Retained(fields), m.field, value);
    TargetsRewritten(fields, m.field, value);
    hide Inspect, Sound, Retained, SetTarget, SetFirst, Rewritten;
  }

  // --------------------------------------------------------------- what cannot be edited

  datatype Step = Member(name: string) | Element(index: nat)

  /** What lies at the end of a path into the item. */
  function At(item: Json, path: seq<Step>): Option<Json> {
    if path == [] then Some(item)
    else match path[0]
      case Member(name) => if item.Object? && name in item.members then At(item.members[name], path[1..]) else None
      case Element(index) => if item.List? && index < |item.items| then At(item.items[index], path[1..]) else None
  }

  /** The text is the word, which is in small letters, but for its case. */
  predicate Spells(text: string, word: string) {
    |text| == |word| && forall i :: 0 <= i < |text| ==>
      text[i] == word[i] || ('A' <= text[i] <= 'Z' && text[i] as int + 32 == word[i] as int)
  }

  /** A member an update through JSON would lose: a passkey, a file, or something of such a type. */
  ghost predicate Fragile(name: string, value: Json) {
    || (exists i, j :: 0 <= i <= j <= |name| && Spells(name[i..j], "passkey"))
    || (Spells(name, "files") && value != List([]))
    || (Spells(name, "type") && value.Text? && (Spells(value.text, "file") || Spells(value.text, "passkey")))
  }

  lemma {:induction false} LowerMeans(s: string)
    ensures |Lower(s)| == |s|
    ensures forall i :: 0 <= i < |s| ==> Lower(s)[i] == if 'A' <= s[i] <= 'Z' then s[i] + 32 as char else s[i]
  {
    if s != "" { LowerMeans(s[1..]); }
  }

  /** Against a word in small letters, lowering is ignoring case. */
  lemma SameMeans(s: string, word: string)
    requires forall i :: 0 <= i < |word| ==> 'a' <= word[i] <= 'z'
    ensures Lower(s) == word <==> Spells(s, word)
  {
    LowerMeans(s);
    if Spells(s, word) {
      assert forall i :: 0 <= i < |s| ==> Lower(s)[i] == word[i];
    } else if |s| == |word| {
      var i :| 0 <= i < |s| && s[i] != word[i] && !('A' <= s[i] <= 'Z' && s[i] as int + 32 == word[i] as int);
      assert Lower(s)[i] != word[i];
    }
  }

  lemma {:induction false} LowerSlice(s: string, i: nat, j: nat)
    requires i <= j <= |s|
    ensures |Lower(s)| == |s| && Lower(s)[i..j] == Lower(s[i..j])
  {
    LowerMeans(s);
    LowerMeans(s[i..j]);
    assert |Lower(s)[i..j]| == |Lower(s[i..j])|;
    forall k | 0 <= k < j - i
      ensures Lower(s)[i..j][k] == Lower(s[i..j])[k]
    {
      assert s[i..j][k] == s[i + k];
    }
  }

  lemma {:induction false} ContainedAt(s: string, part: string, i: nat, j: nat)
    requires i <= j <= |s| && s[i..j] == part
    ensures Contains(s, part)
  {
    if i == 0 {
      assert s[0..j] == s[..j];
    } else {
      assert s[1..][i - 1..j - 1] == s[i..j];
      ContainedAt(s[1..], part, i - 1, j - 1);
    }
  }

  lemma {:induction false} ContainsAt(s: string, part: string) returns (i: nat, j: nat)
    requires Contains(s, part)
    ensures i <= j <= |s| && s[i..j] == part
  {
    if part <= s {
      i, j := 0, |part|;
    } else {
      i, j := ContainsAt(s[1..], part);
      assert s[i + 1..j + 1] == s[1..][i..j];
      i, j := i + 1, j + 1;
    }
  }

  lemma ContainsMeans(s: string, part: string)
    ensures Contains(s, part) <==> exists i, j :: 0 <= i <= j <= |s| && s[i..j] == part
  {
    if Contains(s, part) {
      var i, j := ContainsAt(s, part);
    } else {
      forall i, j | 0 <= i <= j <= |s|
        ensures s[i..j] != part
      {
        if s[i..j] == part { ContainedAt(s, part, i, j); }
      }
    }
    hide Contains;
  }

  lemma FragileMeans(name: string, value: Json)
    ensures UnsupportedMember(name, value) <==> Fragile(name, value)
  {
    var key := Lower(name);
    ContainsMeans(key, "passkey");
    LowerMeans(name);
    forall i, j | 0 <= i <= j <= |name|
      ensures key[i..j] == "passkey" <==> Spells(name[i..j], "passkey")
    {
      LowerSlice(name, i, j);
      SameMeans(name[i..j], "passkey");
    }
    SameMeans(name, "files");
    SameMeans(name, "type");
    if value.Text? {
      SameMeans(value.text, "file");
      SameMeans(value.text, "passkey");
    }
    hide Lower, Contains, Spells;
  }

  /** At the end of the path there is a fragile member of this name. */
  ghost predicate Breaks(item: Json, path: seq<Step>, name: string) {
    && At(item, path).Some? && At(item, path).value.Object? && name in At(item, path).value.members
    && Fragile(name, At(item, path).value.members[name])
  }

  lemma BreaksDeeper(item: Json, step: Step, path: seq<Step>, name: string)
    ensures Breaks(item, [step] + path, name) <==>
      if step.Member? then item.Object? && step.name in item.members && Breaks(item.members[step.name], path, name)
      else item.List? && step.index < |item.items| && Breaks(item.items[step.index], path, name)
  {
    assert ([step] + path)[1..] == path;
    hide Fragile;
  }

  /** An item is not edited exactly when somewhere in it, at any depth, there is a fragile member. */
  lemma {:induction false} UnsupportedMeans(item: Json)
    ensures Unsupported(item) <==> exists path, name :: Breaks(item, path, name)
    decreases item
  {
    hide UnsupportedMember, Fragile;
    match item
    case Object(members) =>
      forall name | name in members
        ensures Unsupported(members[name]) <==> exists path, inner :: Breaks(members[name], path, inner)
        ensures UnsupportedMember(name, members[name]) <==> Breaks(item, [], name)
        ensures Unsupported(members[name]) ==> exists path, inner :: Breaks(item, path, inner)
      {
        UnsupportedMeans(members[name]);
        FragileMeans(name, members[name]);
        if Unsupported(members[name]) {
          var path, inner :| Breaks(members[name], path, inner);
          BreaksDeeper(item, Member(name), path, inner);
        }
      }
      forall path, name | Breaks(item, path, name)
        ensures Unsupported(item)
      {
        if path != [] {
          BreaksDeeper(item, path[0], path[1..], name);
          assert path == [path[0]] + path[1..];
        }
      }
    case List(items) =>
      forall i | 0 <= i < |items|
        ensures Unsupported(items[i]) <==> exists path, name :: Breaks(items[i], path, name)
        ensures Unsupported(items[i]) ==> exists path, name :: Breaks(item, path, name)
      {
        UnsupportedMeans(items[i]);
        if Unsupported(items[i]) {
          var path, name :| Breaks(items[i], path, name);
          BreaksDeeper(item, Element(i), path, name);
        }
      }
      forall path, name | Breaks(item, path, name)
        ensures Unsupported(item)
      {
        if path != [] {
          BreaksDeeper(item, path[0], path[1..], name);
          assert path == [path[0]] + path[1..];
        }
      }
    case _ =>
  }
}
