/** JSON values, once parsed. Object members are unordered. */
module Json {
  import opened Domain

  datatype Json =
    | Null
    | Bool(flag: bool)
    | Number(number: int)
    | Fraction(literal: string)
    | Text(text: string)
    | List(items: seq<Json>)
    | Object(members: map<string, Json>)

  function Get(j: Json, key: string): Option<Json> {
    if j.Object? && key in j.members then Some(j.members[key]) else None
  }

  function GetText(j: Json, key: string): Option<string> {
    var v := Get(j, key);
    if v.Some? && v.value.Text? then Some(v.value.text) else None
  }

  function GetList(j: Json, key: string): Option<seq<Json>> {
    var v := Get(j, key);
    if v.Some? && v.value.List? then Some(v.value.items) else None
  }

  function Set(j: Json, key: string, value: Json): Json
    requires j.Object?
  {
    Object(j.members[key := value])
  }

  // ---------------------------------------------------------------- stable ordering

  predicate TextLeq(a: string, b: string) {
    a == "" || (b != "" && (a[0] < b[0] || (a[0] == b[0] && TextLeq(a[1..], b[1..]))))
  }

  /** A missing identifier comes first. */
  predicate KeyLeq(a: Option<string>, b: Option<string>) {
    a.None? || (b.Some? && TextLeq(a.value, b.value))
  }

  function Key(j: Json): Option<string> { GetText(j, "id") }

  predicate Before(x: Json, y: Json) { KeyLeq(Key(x), Key(y)) }

  lemma {:induction false} TextTotal(a: string, b: string)
    ensures TextLeq(a, b) || TextLeq(b, a)
    ensures a == b ==> TextLeq(a, b)
  {
    if a != "" && b != "" && a[0] == b[0] { TextTotal(a[1..], b[1..]); }
  }

  lemma BeforeTotal(x: Json, y: Json)
    ensures Before(x, y) || Before(y, x)
    ensures Key(x) == Key(y) ==> Before(x, y)
  {
    if Key(x).Some? && Key(y).Some? { TextTotal(Key(x).value, Key(y).value); }
  }

  function Insert(x: Json, s: seq<Json>): seq<Json> {
    if s == [] || Before(x, s[0]) then [x] + s else [s[0]] + Insert(x, s[1..])
  }

  /** Elements with equal identifiers keep their order. */
  function Sorted(s: seq<Json>): seq<Json> {
    if s == [] then [] else Insert(s[0], Sorted(s[1..]))
  }

  predicate Ordered(s: seq<Json>) {
    forall i :: 0 < i < |s| ==> Before(s[i - 1], s[i])
  }

  lemma {:induction false} InsertOrdered(x: Json, s: seq<Json>)
    requires Ordered(s)
    ensures Ordered(Insert(x, s)) && Insert(x, s) != []
    ensures Insert(x, s)[0] == x || (s != [] && Insert(x, s)[0] == s[0])
  {
    if s != [] && !Before(x, s[0]) {
      BeforeTotal(x, s[0]);
      InsertOrdered(x, s[1..]);
      var rest := Insert(x, s[1..]);
      assert rest[0] == x || rest[0] == s[1];
    }
  }

  lemma {:induction false} SortedOrdered(s: seq<Json>)
    ensures Ordered(Sorted(s))
  {
    if s != [] {
      SortedOrdered(s[1..]);
      InsertOrdered(s[0], Sorted(s[1..]));
    }
  }

  lemma {:induction false} OrderedStays(s: seq<Json>)
    requires Ordered(s)
    ensures Sorted(s) == s
  {
    if s != [] {
      OrderedStays(s[1..]);
      assert s == [s[0]] + s[1..];
    }
  }

  /** The elements with one identifier, in order. */
  function Pick(s: seq<Json>, key: Option<string>): seq<Json> {
    if s == [] then []
    else (if Key(s[0]) == key then [s[0]] else []) + Pick(s[1..], key)
  }

  lemma {:induction false} InsertPermutes(x: Json, s: seq<Json>)
    ensures multiset(Insert(x, s)) == multiset{x} + multiset(s)
  {
    if s != [] && !Before(x, s[0]) {
      InsertPermutes(x, s[1..]);
      assert s == [s[0]] + s[1..];
      hide Before;
    }
  }

  lemma {:induction false} SortedPermutes(s: seq<Json>)
    ensures multiset(Sorted(s)) == multiset(s)
  {
    if s != [] {
      SortedPermutes(s[1..]);
      InsertPermutes(s[0], Sorted(s[1..]));
      assert s == [s[0]] + s[1..];
    }
  }

  lemma PickFirst(x: Json, s: seq<Json>, key: Option<string>)
    ensures Pick([x] + s, key) == (if Key(x) == key then [x] else []) + Pick(s, key)
  {
    assert ([x] + s)[1..] == s;
  }

  lemma {:induction false} InsertStable(x: Json, s: seq<Json>, key: Option<string>)
    ensures Pick(Insert(x, s), key) == Pick([x] + s, key)
  {
    PickFirst(x, s, key);
    if s != [] && !Before(x, s[0]) {
      InsertStable(x, s[1..], key);
      BeforeTotal(x, s[0]);
      PickFirst(x, s[1..], key);
      PickFirst(s[0], Insert(x, s[1..]), key);
      hide Before, Key;
    }
  }

  /** Sorting keeps the order of elements with the same identifier. */
  lemma {:induction false} SortedStable(s: seq<Json>, key: Option<string>)
    ensures Pick(Sorted(s), key) == Pick(s, key)
  {
    if s != [] {
      SortedStable(s[1..], key);
      InsertStable(s[0], Sorted(s[1..]), key);
      PickFirst(s[0], Sorted(s[1..]), key);
    }
  }

  lemma {:induction false} TextAntisymmetric(a: string, b: string)
    requires TextLeq(a, b) && TextLeq(b, a)
    ensures a == b
  {
    if a != "" {
      TextAntisymmetric(a[1..], b[1..]);
      assert a == [a[0]] + a[1..] && b == [b[0]] + b[1..];
    }
  }

  lemma {:induction false} TextTransitive(a: string, b: string, c: string)
    requires TextLeq(a, b) && TextLeq(b, c)
    ensures TextLeq(a, c)
  {
    if a != "" && a[0] == b[0] == c[0] { TextTransitive(a[1..], b[1..], c[1..]); }
  }

  lemma BeforeOrders(x: Json, y: Json, z: Json)
    ensures Before(x, y) && Before(y, z) ==> Before(x, z)
    ensures Before(x, y) && Before(y, x) ==> Key(x) == Key(y)
  {
    if Before(x, y) && Before(y, x) && Key(x).Some? { TextAntisymmetric(Key(x).value, Key(y).value); }
    if Before(x, y) && Before(y, z) && Key(x).Some? { TextTransitive(Key(x).value, Key(y).value, Key(z).value); }
  }

  lemma {:induction false} FirstIsLeast(s: seq<Json>, x: Json)
    requires Ordered(s) && x in s
    ensures Before(s[0], x)
  {
    BeforeTotal(x, x);
    if x != s[0] {
      FirstIsLeast(s[1..], x);
      BeforeOrders(s[0], s[1], x);
    }
    hide Before;
  }

  lemma {:induction false} PickIn(s: seq<Json>, key: Option<string>)
    ensures forall x :: x in Pick(s, key) ==> x in s && Key(x) == key
    ensures forall x :: x in s && Key(x) == key ==> x in Pick(s, key)
  {
    if s != [] { PickIn(s[1..], key); }
  }

  /** The same elements under every identifier, in the same order. */
  ghost predicate SamePicks(a: seq<Json>, b: seq<Json>) {
    forall key :: Pick(a, key) == Pick(b, key)
  }

  lemma SameFirst(a: seq<Json>, b: seq<Json>)
    requires Ordered(a) && Ordered(b) && SamePicks(a, b) && a != [] && b != []
    ensures a[0] == b[0]
  {
    PickIn(a, Key(b[0]));
    PickIn(b, Key(a[0]));
    var x, y := Pick(a, Key(b[0]))[0], Pick(b, Key(a[0]))[0];
    FirstIsLeast(a, x);
    FirstIsLeast(b, y);
    BeforeOrders(a[0], b[0], a[0]);
    assert Pick(a, Key(a[0])) == Pick(b, Key(a[0]));
  }

  lemma {:induction false} OrderedSame(a: seq<Json>, b: seq<Json>)
    requires Ordered(a) && Ordered(b) && SamePicks(a, b)
    ensures a == b
  {
    if a == [] {
      assert b != [] ==> Pick(b, Key(b[0])) != Pick(a, Key(b[0]));
    } else {
      assert b != [] by { assert Pick(a, Key(a[0])) == Pick(b, Key(a[0])); }
      SameFirst(a, b);
      forall key
        ensures Pick(a[1..], key) == Pick(b[1..], key)
      {
        var first := if Key(a[0]) == key then [a[0]] else [];
        assert Pick(a, key) == Pick(b, key);
        assert (first + Pick(a[1..], key))[|first|..] == (first + Pick(b[1..], key))[|first|..];
      }
      OrderedSame(a[1..], b[1..]);
      assert a == [a[0]] + a[1..] && b == [b[0]] + b[1..];
    }
  }

  /** Two lists sort alike exactly when they hold the same elements and order those of one identifier
      alike. */
  lemma SortedSame(a: seq<Json>, b: seq<Json>)
    ensures Sorted(a) == Sorted(b) <==> SamePicks(a, b)
  {
    forall key
      ensures Pick(Sorted(a), key) == Pick(a, key) && Pick(Sorted(b), key) == Pick(b, key)
    {
      SortedStable(a, key);
      SortedStable(b, key);
    }
    SortedOrdered(a);
    SortedOrdered(b);
    if SamePicks(a, b) { OrderedSame(Sorted(a), Sorted(b)); }
  }
}
