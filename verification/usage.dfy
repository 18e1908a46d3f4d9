/** Usage evidence: decimals kept as text, thresholds judged without rounding, and statuses
    merged whatever their order. */
module Usage {
  import opened Domain
  import J = Json

  predicate Digit(c: char) { '0' <= c <= '9' }

  predicate Digits(s: string) { forall i :: 0 <= i < |s| ==> Digit(s[i]) }

  function IndexOf(s: string, c: char): (i: nat)
    ensures i <= |s| && c !in s[..i] && (i < |s| ==> s[i] == c)
  {
    if s == "" || s[0] == c then 0 else 1 + IndexOf(s[1..], c)
  }

  /** The part before the first point. */
  function Whole(s: string): string { s[..IndexOf(s, '.')] }

  /** The part after it. */
  function Fraction(s: string): string {
    var i := IndexOf(s, '.');
    if i == |s| then "" else s[i + 1..]
  }

  const MAX_DECIMAL: nat := 64

  /** Plain decimal text, unchanged, or None: exponents and bare points are never guessed at. */
  function Decimal(text: string, signed: bool): Option<string> {
    if text == "" || |text| > MAX_DECIMAL then None
    else
      var digits := if signed && text[0] == '-' then text[1..] else text;
      if Whole(digits) == "" || !Digits(Whole(digits)) then None
      else if '.' in digits && (Fraction(digits) == "" || !Digits(Fraction(digits))) then None
      else Some(text)
  }

  /** Digits, and perhaps a point and more digits. */
  ghost predicate Plain(text: string) {
    || (text != "" && Digits(text))
    || exists whole, fraction ::
         text == whole + "." + fraction && whole != "" && fraction != "" && Digits(whole) && Digits(fraction)
  }

  lemma {:induction false} PointAt(whole: string, rest: string)
    requires Digits(whole)
    ensures IndexOf(whole + "." + rest, '.') == |whole|
    ensures IndexOf(whole, '.') == |whole|
  {
    if whole != "" {
      assert whole[0] != '.';
      PointAt(whole[1..], rest);
      assert (whole + "." + rest)[1..] == whole[1..] + "." + rest;
    }
  }

  /** A text is taken, as it stands, exactly when it is plain and not too long; a sign only where
      one is allowed. */
  lemma DecimalMeans(text: string, signed: bool)
    ensures Decimal(text, signed).Some? <==>
      |text| <= 64 && (Plain(text) || (signed && text != "" && text[0] == '-' && Plain(text[1..])))
    ensures Decimal(text, signed).Some? ==> Decimal(text, signed).value == text
  {
    if text != "" {
      var digits := if signed && text[0] == '-' then text[1..] else text;
      assert Plain(text) ==> text[0] != '-' by {
        if Plain(text) && !Digits(text) {
          var whole, fraction :| text == whole + "." + fraction && whole != "" && fraction != "" && Digits(whole) && Digits(fraction);
          assert text[0] == whole[0] && Digit(whole[0]);
        }
      }
      PlainMeans(digits);
    }
  }

  lemma PlainMeans(digits: string)
    ensures Plain(digits) <==>
      && Whole(digits) != "" && Digits(Whole(digits))
      && ('.' in digits ==> Fraction(digits) != "" && Digits(Fraction(digits)))
  {
    var i := IndexOf(digits, '.');
    if i < |digits| {
      assert digits == Whole(digits) + "." + Fraction(digits);
      if Plain(digits) && !Digits(digits) {
        var whole, fraction :| digits == whole + "." + fraction && whole != "" && fraction != "" && Digits(whole) && Digits(fraction);
        PointAt(whole, fraction);
        assert Whole(digits) == whole && Fraction(digits) == fraction;
      }
      assert digits[i] == '.' && !Digit(digits[i]);
    } else {
      assert Whole(digits) == digits && '.' !in digits by { assert digits[..i] == digits; }
      forall whole, fraction | Digits(whole)
        ensures digits != whole + "." + fraction
      {
        PointAt(whole, fraction);
      }
    }
  }

  function TrimZeros(s: string): string {
    if s != "" && s[0] == '0' then TrimZeros(s[1..]) else s
  }

  function PercentState(percent: Option<string>): CapacityStatus {
    if percent.None? then CapacityStatus.Unknown
    else
      var whole := TrimZeros(Whole(percent.value));
      if |whole| > 3 || (|whole| == 3 && J.TextLeq("100", whole)) then Exhausted else Available
  }

  // ---------------------------------------------------------------------- exact values

  function Nat(s: string): nat
    requires Digits(s)
  {
    if s == "" then 0 else Nat(s[..|s| - 1]) * 10 + (s[|s| - 1] - '0') as nat
  }

  function Pow10(n: nat): (p: nat)
    ensures p > 0
  {
    if n == 0 then 1 else 10 * Pow10(n - 1)
  }

  /** The number the text denotes. */
  function Exact(text: string): real
    requires Decimal(text, false).Some?
  {
    FractionIsDigits(text);
    Nat(Whole(text)) as real + Nat(Fraction(text)) as real / Pow10(|Fraction(text)|) as real
  }

  lemma FractionIsDigits(text: string)
    requires Decimal(text, false).Some?
    ensures Digits(Whole(text)) && Digits(Fraction(text))
  {
    var i := IndexOf(text, '.');
    if i < |text| { assert text[i] == '.'; }
  }

  lemma {:induction false} NatBelow(s: string)
    requires Digits(s)
    ensures Nat(s) < Pow10(|s|)
  {
    if s != "" { NatBelow(s[..|s| - 1]); }
  }

  lemma {:induction false} NatAbove(s: string)
    requires s != "" && Digits(s) && s[0] != '0'
    ensures Pow10(|s| - 1) <= Nat(s)
  {
    if |s| == 1 {
      assert s[..0] == "";
    } else {
      NatAbove(s[..|s| - 1]);
    }
  }

  lemma {:induction false} NatDropsZero(s: string)
    requires s != "" && Digits(s) && s[0] == '0'
    ensures Nat(s[1..]) == Nat(s)
  {
    if |s| == 1 {
      assert s[..0] == "" && s[1..] == "";
    } else {
      NatDropsZero(s[..|s| - 1]);
      assert s[..|s| - 1][1..] == s[1..][..|s[1..]| - 1];
    }
  }

  lemma {:induction false} TrimKeeps(s: string)
    requires Digits(s)
    ensures Digits(TrimZeros(s)) && Nat(TrimZeros(s)) == Nat(s)
    ensures TrimZeros(s) != "" ==> TrimZeros(s)[0] != '0'
  {
    if s != "" && s[0] == '0' {
      NatDropsZero(s);
      TrimKeeps(s[1..]);
    }
  }

  lemma {:induction false} PowersGrow(a: nat, b: nat)
    requires a <= b
    ensures Pow10(a) <= Pow10(b)
  {
    if a < b { PowersGrow(a, b - 1); }
  }

  lemma HundredIsThreeDigits(s: string)
    requires Digits(s) && (s != "" ==> s[0] != '0')
    ensures Nat(s) >= 100 <==> |s| >= 3
    ensures |s| == 3 ==> J.TextLeq("100", s)
  {
    NatBelow(s);
    assert Pow10(1) == 10 && Pow10(2) == 100;
    if |s| >= 3 {
      NatAbove(s);
      PowersGrow(2, |s| - 1);
    } else {
      PowersGrow(|s|, 2);
    }
    if |s| == 3 { ThreeDigits(s); }
  }

  lemma ThreeDigits(s: string)
    requires |s| == 3 && Digits(s) && s[0] != '0'
    ensures J.TextLeq("100", s)
  {
    var t := "100";
    assert t[1..] == "00" && t[1..][1..] == "0" && t[1..][1..][1..] == "";
    assert Digit(s[0]) && Digit(s[1]) && Digit(s[2]);
    assert s[1..][0] == s[1] && s[1..][1..][0] == s[2];
    assert J.TextLeq("0", s[1..][1..]);
    assert J.TextLeq("00", s[1..]);
  }

  lemma WholePlusFraction(w: nat, f: nat, p: nat)
    requires f < p
    ensures w as real + f as real / p as real >= 100.0 <==> w >= 100
  {
    assert 0.0 <= f as real / p as real < 1.0;
  }

  /** A percentage is exhausted exactly when its exact value is at least one hundred. */
  lemma PercentIsExact(text: string)
    requires Decimal(text, false) == Some(text)
    ensures PercentState(Some(text)) == (if Exact(text) >= 100.0 then Exhausted else Available)
  {
    FractionIsDigits(text);
    TrimKeeps(Whole(text));
    HundredIsThreeDigits(TrimZeros(Whole(text)));
    NatBelow(Fraction(text));
    WholePlusFraction(Nat(Whole(text)), Nat(Fraction(text)), Pow10(|Fraction(text)|));
  }

  // ---------------------------------------------------------------------------- merging

  /** Any exhaustion wins; otherwise one doubt, or no evidence, leaves the whole unknown. */
  function Merged(states: seq<CapacityStatus>): CapacityStatus {
    if Exhausted in states then Exhausted
    else if states != [] && forall i :: 0 <= i < |states| ==> states[i] == Available then Available
    else CapacityStatus.Unknown
  }

  method Merge(states: seq<CapacityStatus>) returns (status: CapacityStatus)
    ensures status == Merged(states)
  {
    var any, unknown := false, false;
    for i := 0 to |states|
      invariant Exhausted !in states[..i]
      invariant any == (i > 0)
      invariant unknown <==> exists k :: 0 <= k < i && states[k] != Available
    {
      any := true;
      match states[i] {
        case Exhausted => return Exhausted;
        case Available =>
        case _ => unknown := true;
      }
    }
    status := if any && !unknown then Available else CapacityStatus.Unknown;
  }

  lemma NothingElse(states: seq<CapacityStatus>)
    ensures (forall i :: 0 <= i < |states| ==> states[i] == Available) <==> forall s :: s in states ==> s == Available
  {
    if forall s :: s in states ==> s == Available {
      forall i | 0 <= i < |states|
        ensures states[i] == Available
      {
        assert states[i] in states;
      }
    }
  }

  lemma MergedIgnoresOrder(a: seq<CapacityStatus>, b: seq<CapacityStatus>)
    requires multiset(a) == multiset(b)
    ensures Merged(a) == Merged(b)
  {
    forall s: CapacityStatus
      ensures s in a <==> s in b
    {
      assert s in a <==> s in multiset(a);
      assert s in b <==> s in multiset(b);
    }
    NothingElse(a);
    NothingElse(b);
    assert |a| == |multiset(a)| == |multiset(b)| == |b|;
  }

  // ------------------------------------------------------------------ subscription limits

  /** A rate-limit object: its windows' percentages as text, and its two flags when boolean. */
  datatype Bucket = Bucket(windows: seq<Option<string>>, limitReached: Option<bool>, allowed: Option<bool>)

  predicate Says(flag: Option<bool>, value: bool) { flag.Some? && flag.value == value }

  function Percent(text: Option<string>): Option<string> {
    if text.None? then None else Decimal(text.value, false)
  }

  method CodexBucket(bucket: Option<Bucket>) returns (status: CapacityStatus)
    ensures status == BucketStatus(bucket)
  {
    if bucket.None? { return CapacityStatus.Unknown; }
    var states: seq<CapacityStatus> := [];
    for i := 0 to |bucket.value.windows|
      invariant states == WindowStates(bucket.value.windows[..i])
    {
      states := states + [PercentState(Percent(bucket.value.windows[i]))];
    }
    assert bucket.value.windows[..|bucket.value.windows|] == bucket.value.windows;
    ghost var windows := states;
    states := states + if Says(bucket.value.limitReached, true) then [Exhausted] else [];
    states := states + if !Says(bucket.value.allowed, true) || bucket.value.limitReached.None? then [CapacityStatus.Unknown] else [];
    status := Merge(states);
  }

  function WindowStates(windows: seq<Option<string>>): seq<CapacityStatus> {
    seq(|windows|, i requires 0 <= i < |windows| => PercentState(Percent(windows[i])))
  }

  function BucketStatus(bucket: Option<Bucket>): CapacityStatus {
    if bucket.None? then CapacityStatus.Unknown
    else
      var b := bucket.value;
      Merged(WindowStates(b.windows)
             + (if Says(b.limitReached, true) then [Exhausted] else [])
             + (if !Says(b.allowed, true) || b.limitReached.None? then [CapacityStatus.Unknown] else []))
  }

  /** The window is known to have used at least, or less than, all of its allowance. */
  predicate Spent(text: Option<string>) { Percent(text).Some? && Exact(text.value) >= 100.0 }
  predicate Open(text: Option<string>) { Percent(text).Some? && Exact(text.value) < 100.0 }

  lemma WindowMeans(text: Option<string>)
    ensures PercentState(Percent(text)) == Exhausted <==> Spent(text)
    ensures PercentState(Percent(text)) == Available <==> Open(text)
  {
    if Percent(text).Some? { PercentIsExact(text.value); }
  }

  /** An allowance is exhausted exactly when it says so or a window is spent, and available
      exactly when it says it is allowed and not reached and every window is known open. */
  lemma BucketMeans(b: Bucket)
    ensures BucketStatus(Some(b)) == Exhausted <==>
      Says(b.limitReached, true) || exists i :: 0 <= i < |b.windows| && Spent(b.windows[i])
    ensures BucketStatus(Some(b)) == Available <==>
      && Says(b.allowed, true) && Says(b.limitReached, false)
      && b.windows != [] && forall i :: 0 <= i < |b.windows| ==> Open(b.windows[i])
  {
    hide PercentState, Percent, Spent, Open;
    var states := WindowStates(b.windows);
    var flags := (if Says(b.limitReached, true) then [Exhausted] else [])
               + (if !Says(b.allowed, true) || b.limitReached.None? then [CapacityStatus.Unknown] else []);
    assert states + (if Says(b.limitReached, true) then [Exhausted] else [])
         + (if !Says(b.allowed, true) || b.limitReached.None? then [CapacityStatus.Unknown] else []) == states + flags;
    forall i | 0 <= i < |b.windows|
      ensures states[i] == Exhausted <==> Spent(b.windows[i])
      ensures states[i] == Available <==> Open(b.windows[i])
    {
      WindowMeans(b.windows[i]);
    }
    assert flags != [] ==> flags[0] != Available;
    assert |flags| == 0 <==> Says(b.limitReached, false) && Says(b.allowed, true);
    MergedJoin(states, flags);
    hide Merged;
    assert BucketStatus(Some(b)) == Merged(states + flags);
    assert |states| == |b.windows|;
    if Merged(states + flags) == Available {
      assert flags == [];
      assert forall i :: 0 <= i < |b.windows| ==> Open(b.windows[i]);
    }
  }

  lemma MergedJoin(a: seq<CapacityStatus>, b: seq<CapacityStatus>)
    ensures Merged(a + b) == Exhausted <==> Exhausted in a || Exhausted in b
    ensures Merged(a + b) == Available <==>
      a + b != [] && (forall i :: 0 <= i < |a| ==> a[i] == Available) && (forall i :: 0 <= i < |b| ==> b[i] == Available)
  {
    var all := a + b;
    assert forall i :: 0 <= i < |a| ==> all[i] == a[i];
    assert forall i :: 0 <= i < |b| ==> all[|a| + i] == b[i];
    assert forall i :: |a| <= i < |all| ==> all[i] == b[i - |a|];
  }

  // ----------------------------------------------------------------------- coding limits

  const U64_MAX: int := 0xFFFF_FFFF_FFFF_FFFF

  /** One limit row; `kind` is "unknown" when it has no usable label. */
  datatype Row = Row(kind: string, unit: Option<nat>, number: Option<nat>, percent: Option<string>,
                     used: Option<nat>, limit: Option<nat>)

  /** The window is a known span: so many hours, or so many weeks. */
  predicate Scoped(row: Row) {
    && row.unit.Some? && row.number.Some? && 0 < row.number.value
    && ((row.unit.value == 3 && row.number.value * 3600 <= U64_MAX)
        || (row.unit.value == 6 && row.number.value * (7 * 24 * 3600) <= U64_MAX))
  }

  predicate Counted(row: Row) { row.used.Some? && row.limit.Some? && row.limit.value > 0 }

  function RowState(row: Row): CapacityStatus {
    if row.kind != "TOKENS_LIMIT" && row.kind != "TIME_LIMIT" then CapacityStatus.Unknown
    else if !Counted(row) then PercentState(Percent(row.percent))
    else if row.used.value >= row.limit.value then Exhausted
    else if Percent(row.percent).Some? then PercentState(Percent(row.percent))
    else Available
  }

  function RowEvidence(row: Row): CapacityStatus {
    if !Scoped(row) || (RowState(row) != Exhausted && row.limit.Some? && row.limit.value == 0) then CapacityStatus.Unknown
    else RowState(row)
  }

  /** Time limits inform the operator but do not bear on generation. */
  function Evidence(rows: seq<Row>): seq<CapacityStatus> {
    if rows == [] then []
    else
      Evidence(rows[..|rows| - 1])
      + if rows[|rows| - 1].kind == "TIME_LIMIT" then [] else [RowEvidence(rows[|rows| - 1])]
  }

  method Glm(rows: seq<Row>) returns (status: CapacityStatus)
    ensures status == Merged(Evidence(rows))
  {
    var states: seq<CapacityStatus> := [];
    for i := 0 to |rows|
      invariant states == Evidence(rows[..i])
    {
      var row := rows[i];
      assert rows[..i + 1][..i] == rows[..i];
      var state := RowState(row);
      if row.kind != "TIME_LIMIT" {
        if !Scoped(row) || (state != Exhausted && row.limit.Some? && row.limit.value == 0) {
          states := states + [CapacityStatus.Unknown];
        } else {
          states := states + [state];
        }
      }
    }
    assert rows[..|rows|] == rows;
    status := Merge(states);
  }

  /** The window is so many hours or weeks, more than none, in seconds that can be counted. */
  predicate Spans(row: Row) {
    || (row.unit == Some(3) && row.number.Some? && 0 < row.number.value && row.number.value * 3600 <= 0xFFFF_FFFF_FFFF_FFFF)
    || (row.unit == Some(6) && row.number.Some? && 0 < row.number.value && row.number.value * 604_800 <= 0xFFFF_FFFF_FFFF_FFFF)
  }

  /** The row proves its allowance used up: by its counts or by its percentage. */
  predicate UsedUp(row: Row) {
    && row.kind == "TOKENS_LIMIT" && Spans(row)
    && (|| (row.used.Some? && row.limit.Some? && 0 < row.limit.value <= row.used.value)
        || Spent(row.percent))
  }

  /** The row proves there is some left, and nothing in it says otherwise. */
  predicate HasLeft(row: Row) {
    && row.kind == "TOKENS_LIMIT" && Spans(row)
    && if row.used.Some? && row.limit.Some? && 0 < row.limit.value then
         row.used.value < row.limit.value && (Percent(row.percent).Some? ==> Open(row.percent))
       else Open(row.percent) && (row.limit.Some? ==> row.limit.value > 0)
  }

  lemma RowMeans(row: Row)
    requires row.kind != "TIME_LIMIT"
    ensures RowEvidence(row) == Exhausted <==> UsedUp(row)
    ensures RowEvidence(row) == Available <==> HasLeft(row)
  {
    WindowMeans(row.percent);
    hide PercentState, Percent;
  }

  predicate AllAvailable(states: seq<CapacityStatus>) { forall s :: s in states ==> s == Available }

  lemma AvailableLast(states: seq<CapacityStatus>, last: CapacityStatus)
    ensures AllAvailable(states + [last]) <==> AllAvailable(states) && last == Available
    ensures AllAvailable(states + []) <==> AllAvailable(states)
  {
    var all := states + [last];
    assert all[|states|] == last && last in all;
    assert forall s :: s in all <==> s in states || s == last;
    assert states + [] == states;
  }

  lemma {:induction false} EvidenceMeans(rows: seq<Row>)
    ensures Exhausted in Evidence(rows) <==> exists i :: 0 <= i < |rows| && UsedUp(rows[i])
    ensures AllAvailable(Evidence(rows)) <==>
      forall i :: 0 <= i < |rows| && rows[i].kind != "TIME_LIMIT" ==> HasLeft(rows[i])
    ensures Evidence(rows) == [] <==> forall i :: 0 <= i < |rows| ==> rows[i].kind == "TIME_LIMIT"
  {
    if rows != [] {
      var before, last := rows[..|rows| - 1], rows[|rows| - 1];
      EvidenceMeans(before);
      if last.kind != "TIME_LIMIT" { RowMeans(last); }
      hide RowEvidence, UsedUp, HasLeft;
      SplitLast(before, last, rows);
      AvailableLast(Evidence(before), RowEvidence(last));
    }
  }

  lemma SplitLast(before: seq<Row>, last: Row, rows: seq<Row>)
    requires rows == before + [last] && rows[..|rows| - 1] == before
    ensures (exists i :: 0 <= i < |rows| && UsedUp(rows[i])) <==>
      UsedUp(last) || exists i :: 0 <= i < |before| && UsedUp(before[i])
    ensures (forall i :: 0 <= i < |rows| && rows[i].kind != "TIME_LIMIT" ==> HasLeft(rows[i])) <==>
      && (last.kind != "TIME_LIMIT" ==> HasLeft(last))
      && forall i :: 0 <= i < |before| && before[i].kind != "TIME_LIMIT" ==> HasLeft(before[i])
  {
    assert forall i :: 0 <= i < |before| ==> rows[i] == before[i];
    assert rows[|before|] == last;
  }

  /** The status is exhausted exactly when some token row is used up, and available exactly
      when there is one and each has some left. */
  lemma GlmMeans(rows: seq<Row>)
    ensures Merged(Evidence(rows)) == Exhausted <==> exists i :: 0 <= i < |rows| && UsedUp(rows[i])
    ensures Merged(Evidence(rows)) == Available <==>
      && (exists i :: 0 <= i < |rows| && rows[i].kind != "TIME_LIMIT")
      && forall i :: 0 <= i < |rows| && rows[i].kind != "TIME_LIMIT" ==> HasLeft(rows[i])
  {
    EvidenceMeans(rows);
    NothingElse(Evidence(rows));
    hide Evidence, UsedUp, HasLeft;
    if Merged(Evidence(rows)) == Available { assert Exhausted !in Evidence(rows); }
    if AllAvailable(Evidence(rows)) { assert Exhausted !in Evidence(rows); }
  }
}
