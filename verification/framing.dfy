/** Server-sent events as the bridge writes and splits them: frames, their lines, and what the
    lines carry. */
module Framing {
  import opened Domain
  import S = Sse

  const LF: bv8 := 10
  const CR: bv8 := 13
  const SPACE: bv8 := 32
  const EVENT_COLON: Bytes := [101, 118, 101, 110, 116, 58]   // "event:"
  const DATA_COLON: Bytes := [100, 97, 116, 97, 58]           // "data:"
  const BLANKS: set<bv8> := {9, 10, 11, 12, 13, 32}

  // ------------------------------------------------------------------------- reading

  /** Carriage returns before line feeds are dropped; others are kept. */
  function Unix(s: Bytes): Bytes {
    if s == [] then []
    else if |s| >= 2 && s[0] == CR && s[1] == LF then [LF] + Unix(s[2..])
    else [s[0]] + Unix(s[1..])
  }

  /** Where the first blank line begins. */
  function Break(s: Bytes): (i: nat)
    ensures i <= |s| && (i < |s| ==> i + 1 < |s| && s[i] == LF && s[i + 1] == LF)
  {
    if |s| < 2 then |s|
    else if s[0] == LF && s[1] == LF then 0
    else 1 + Break(s[1..])
  }

  function Frames(s: Bytes): (r: seq<Bytes>)
    ensures r != []
    decreases |s|
  {
    var i := Break(s);
    if i == |s| then [s] else [s[..i]] + Frames(s[i + 2..])
  }

  function Lines(s: Bytes): seq<Bytes>
    decreases |s|
  {
    var i := S.IndexOf(s, LF);
    if i == |s| then [s] else [s[..i]] + Lines(s[i + 1..])
  }

  function TrimSpaces(s: Bytes): Bytes {
    if s != [] && s[0] == SPACE then TrimSpaces(s[1..]) else s
  }

  function DropSpace(s: Bytes): Bytes { if s != [] && s[0] == SPACE then s[1..] else s }

  /** The data lines of a frame without the space, or every space, that leads them, joined by
      line feeds; empty when there are none. */
  function Data(lines: seq<Bytes>, every: bool): Option<Bytes> {
    if lines == [] then None
    else
      var rest := Data(lines[1..], every);
      if !(DATA_COLON <= lines[0]) then rest
      else
        var text := lines[0][|DATA_COLON|..];
        var own := if every then TrimSpaces(text) else DropSpace(text);
        Some(if rest.None? then own else own + [LF] + rest.value)
  }

  function StripStart(s: Bytes): Bytes { if s != [] && s[0] in BLANKS then StripStart(s[1..]) else s }

  function StripEnd(s: Bytes): Bytes { if s != [] && s[|s| - 1] in BLANKS then StripEnd(s[..|s| - 1]) else s }

  function Stripped(s: Bytes): Bytes { StripEnd(StripStart(s)) }

  /** The event names of a frame. */
  function NamesOf(lines: seq<Bytes>): seq<Bytes> {
    if lines == [] then []
    else
      (if EVENT_COLON <= lines[0] then [Stripped(lines[0][|EVENT_COLON|..])] else []) + NamesOf(lines[1..])
  }

  // ------------------------------------------------------------------------- writing

  datatype Named = Named(kind: Bytes, data: Bytes)

  function Frame(n: Named): Bytes { EVENT_COLON + [SPACE] + n.kind + [LF] + DATA_COLON + [SPACE] + n.data }

  function Written(events: seq<Named>): Bytes {
    if events == [] then [] else Frame(events[0]) + [LF, LF] + Written(events[1..])
  }

  function Framed(events: seq<Named>): seq<Bytes> {
    if events == [] then [[]] else [Frame(events[0])] + Framed(events[1..])
  }

  /** Encoded text escapes its control characters and starts with a brace. */
  predicate Clean(n: Named) {
    && LF !in n.kind && CR !in n.kind && LF !in n.data && CR !in n.data
    && n.data != [] && n.data[0] != SPACE
  }

  // ------------------------------------------------------------------ what is read, exactly

  /** Every carriage return before a line feed goes, wherever it stands. */
  lemma {:induction false} ReturnsGo(a: Bytes, b: Bytes)
    ensures Unix(a + [13, 10] + b) == Unix(a) + [10] + Unix(b)
    decreases |a|
  {
    var s := a + [13, 10] + b;
    if a == [] {
      assert s[2..] == b;
    } else if |a| >= 2 && a[0] == CR && a[1] == LF {
      ReturnsGo(a[2..], b);
      assert s[2..] == a[2..] + [13, 10] + b;
    } else {
      ReturnsGo(a[1..], b);
      assert s[1..] == a[1..] + [13, 10] + b;
    }
  }

  /** And nothing else does. */
  lemma {:induction false} OthersStay(s: Bytes)
    requires forall i :: 0 < i < |s| ==> !(s[i - 1] == 13 && s[i] == 10)
    ensures Unix(s) == s
  {
    if s != [] {
      assert forall i :: 0 < i < |s[1..]| ==> !(s[1..][i - 1] == 13 && s[1..][i] == 10);
      OthersStay(s[1..]);
      assert s == [s[0]] + s[1..];
    }
  }

  /** The text of a data line: without the spaces that lead it, or without the first of them. */
  ghost predicate Texts(line: Bytes, text: Bytes, every: bool) {
    exists spaces: Bytes ::
      && line == [100, 97, 116, 97, 58] + spaces + text && (forall i :: 0 <= i < |spaces| ==> spaces[i] == 32)
      && (every || |spaces| <= 1) && (every || |spaces| == 0 ==> text == [] || text[0] != 32)
  }

  lemma {:induction false} TrimsAll(s: Bytes) returns (spaces: Bytes)
    ensures s == spaces + TrimSpaces(s) && forall i :: 0 <= i < |spaces| ==> spaces[i] == 32
    ensures TrimSpaces(s) == [] || TrimSpaces(s)[0] != 32
  {
    spaces := [];
    if s != [] && s[0] == SPACE {
      spaces := TrimsAll(s[1..]);
      spaces := [s[0]] + spaces;
      assert s == [s[0]] + s[1..];
    }
  }

  /** A frame's data is the text of its one data line; of several, the texts with line feeds between
      them; and of none, none. */
  lemma DataOfOne(line: Bytes, every: bool)
    ensures Data([line], every).Some? <==> [100, 97, 116, 97, 58] <= line
    ensures Data([line], every).Some? ==> Texts(line, Data([line], every).value, every)
  {
    assert Data([line][1..], every) == None;
    if DATA_COLON <= line {
      var text := line[|DATA_COLON|..];
      assert line == DATA_COLON + text;
      var spaces := TrimsAll(text);
      if every {
        assert line == DATA_COLON + spaces + TrimSpaces(text);
      } else if text != [] && text[0] == SPACE {
        assert line == DATA_COLON + [SPACE] + text[1..];
      } else {
        assert line == DATA_COLON + [] + text;
      }
    }
  }

  lemma {:induction false} DataJoins(a: seq<Bytes>, b: seq<Bytes>, every: bool)
    ensures Data([], every) == None
    ensures Data(a + b, every) ==
      match (Data(a, every), Data(b, every))
      case (None, second) => second
      case (first, None) => first
      case (Some(first), Some(second)) => Some(first + [10] + second)
  {
    if a == [] {
      assert a + b == b;
    } else {
      DataJoins(a[1..], b, every);
      assert (a + b)[1..] == a[1..] + b && (a + b)[0] == a[0];
      if DATA_COLON <= a[0] && Data(a[1..], every).Some? && Data(b, every).Some? {
        var own := Data([a[0]], every);
        assert [a[0]][1..] == [];
        BytesJoin(own.value, Data(a[1..], every).value, Data(b, every).value);
      }
      hide TrimSpaces, DropSpace;
    }
  }

  lemma BytesJoin(a: Bytes, b: Bytes, c: Bytes)
    ensures a + [10] + (b + [10] + c) == a + [10] + b + [10] + c
  {
  }

  /** The names a frame gives its event, in order. */
  lemma {:induction false} NamesJoin(a: seq<Bytes>, b: seq<Bytes>)
    ensures NamesOf(a + b) == NamesOf(a) + NamesOf(b)
  {
    if a == [] {
      assert a + b == b;
    } else {
      NamesJoin(a[1..], b);
      assert (a + b)[1..] == a[1..] + b && (a + b)[0] == a[0];
      NamesAssociate(if EVENT_COLON <= a[0] then [Stripped(a[0][|EVENT_COLON|..])] else [], NamesOf(a[1..]), NamesOf(b));
      hide Stripped;
    }
  }

  lemma NamesAssociate(a: seq<Bytes>, b: seq<Bytes>, c: seq<Bytes>)
    ensures a + (b + c) == a + b + c
  {
  }

  // ---------------------------------------------------------------------- round trip

  lemma UnixKeeps(s: Bytes)
    requires CR !in s
    ensures Unix(s) == s
  {
    OthersStay(s);
  }

  lemma FrameIsUnix(n: Named)
    requires Clean(n)
    ensures CR !in Frame(n)
  {
    assert CR !in EVENT_COLON && CR !in DATA_COLON;
  }

  lemma {:induction false} WrittenIsUnix(events: seq<Named>)
    requires forall i :: 0 <= i < |events| ==> Clean(events[i])
    ensures CR !in Written(events)
  {
    if events != [] {
      FrameIsUnix(events[0]);
      WrittenIsUnix(events[1..]);
      hide Frame;
    }
  }

  /** A text without line feeds, then one, then another such text, holds no blank line. */
  lemma {:induction false} BreaksAfter(a: Bytes, b: Bytes, rest: Bytes)
    requires LF !in a && LF !in b && b != []
    ensures Break(a + [LF] + b + [LF, LF] + rest) == |a| + 1 + |b|
    decreases |a|
  {
    var s := a + [LF] + b + [LF, LF] + rest;
    if a == [] {
      assert s[0] == LF && s[1] == b[0];
      assert s[1..] == b + [LF, LF] + rest;
      BreaksAfterLine(b, rest);
    } else {
      assert s[0] == a[0];
      assert s[1..] == a[1..] + [LF] + b + [LF, LF] + rest;
      BreaksAfter(a[1..], b, rest);
    }
  }

  lemma {:induction false} BreaksAfterLine(b: Bytes, rest: Bytes)
    requires LF !in b
    ensures Break(b + [LF, LF] + rest) == |b|
  {
    var s := b + [LF, LF] + rest;
    if b == [] {
      assert s[0] == LF && s[1] == LF;
    } else {
      assert s[0] == b[0];
      assert s[1..] == b[1..] + [LF, LF] + rest;
      BreaksAfterLine(b[1..], rest);
    }
  }

  lemma {:induction false} FirstAt(a: Bytes, rest: Bytes)
    requires LF !in a
    ensures S.IndexOf(a + [LF] + rest, LF) == |a|
    ensures S.IndexOf(a, LF) == |a|
  {
    if a != [] {
      FirstAt(a[1..], rest);
      assert (a + [LF] + rest)[1..] == a[1..] + [LF] + rest;
    }
  }

  lemma FrameLines(n: Named)
    requires Clean(n)
    ensures Lines(Frame(n)) == [EVENT_COLON + [SPACE] + n.kind, DATA_COLON + [SPACE] + n.data]
  {
    var a, b := EVENT_COLON + [SPACE] + n.kind, DATA_COLON + [SPACE] + n.data;
    assert LF !in EVENT_COLON && LF !in DATA_COLON;
    assert Frame(n) == a + [LF] + b;
    FirstAt(a, b);
    FirstAt(b, []);
    assert (a + [LF] + b)[..|a|] == a && (a + [LF] + b)[|a| + 1..] == b;
    hide S.IndexOf;
  }

  lemma EventLine(n: Named)
    ensures var line := EVENT_COLON + [SPACE] + n.kind;
      EVENT_COLON <= line && !(DATA_COLON <= line) && line[|EVENT_COLON|..] == [SPACE] + n.kind
  {
    var line := EVENT_COLON + [SPACE] + n.kind;
    assert line[0] == 101 && DATA_COLON[0] == 100;
  }

  lemma DataLine(n: Named)
    requires Clean(n)
    ensures var line := DATA_COLON + [SPACE] + n.data;
      && DATA_COLON <= line && !(EVENT_COLON <= line)
      && TrimSpaces(line[|DATA_COLON|..]) == n.data == DropSpace(line[|DATA_COLON|..])
  {
    var line := DATA_COLON + [SPACE] + n.data;
    assert line[0] == 100 && EVENT_COLON[0] == 101;
    var text := line[|DATA_COLON|..];
    assert text == [SPACE] + n.data && text[1..] == n.data;
    assert TrimSpaces(n.data) == n.data;
  }

  lemma TwoLines(a: Bytes, b: Bytes, every: bool)
    ensures !(DATA_COLON <= a) && DATA_COLON <= b ==>
      Data([a, b], every) == Some(if every then TrimSpaces(b[|DATA_COLON|..]) else DropSpace(b[|DATA_COLON|..]))
    ensures NamesOf([a, b]) ==
      (if EVENT_COLON <= a then [Stripped(a[|EVENT_COLON|..])] else [])
      + (if EVENT_COLON <= b then [Stripped(b[|EVENT_COLON|..])] else [])
  {
    var none: seq<Bytes> := [];
    assert [a, b][1..] == [b] && [b][1..] == none;
    hide TrimSpaces, DropSpace, Stripped;
    assert Data(none, every) == None && NamesOf(none) == [];
    assert NamesOf([b]) == if EVENT_COLON <= b then [Stripped(b[|EVENT_COLON|..])] else [];
    assert Data([b], every) == if DATA_COLON <= b
      then Some(if every then TrimSpaces(b[|DATA_COLON|..]) else DropSpace(b[|DATA_COLON|..])) else None;
  }

  lemma FrameData(n: Named, every: bool)
    requires Clean(n)
    ensures Data(Lines(Frame(n)), every) == Some(n.data)
  {
    FrameLines(n);
    EventLine(n);
    DataLine(n);
    TwoLines(EVENT_COLON + [SPACE] + n.kind, DATA_COLON + [SPACE] + n.data, every);
    hide *;
  }

  /** A name without blanks around it is read as it was written. */
  lemma FrameNames(n: Named)
    requires Clean(n) && Stripped(n.kind) == n.kind
    ensures NamesOf(Lines(Frame(n))) == [n.kind]
  {
    FrameLines(n);
    EventLine(n);
    DataLine(n);
    TwoLines(EVENT_COLON + [SPACE] + n.kind, DATA_COLON + [SPACE] + n.data, true);
    StripsSpace(n.kind);
    hide *;
  }

  lemma StripsSpace(s: Bytes)
    ensures Stripped([SPACE] + s) == Stripped(s)
  {
    hide StripEnd;
    assert ([SPACE] + s)[1..] == s;
  }

  lemma FrameBreaks(n: Named, rest: Bytes)
    requires Clean(n)
    ensures Break(Frame(n) + [LF, LF] + rest) == |Frame(n)|
  {
    hide Break;
    var a, b := EVENT_COLON + [SPACE] + n.kind, DATA_COLON + [SPACE] + n.data;
    assert LF !in EVENT_COLON && LF !in DATA_COLON;
    assert Frame(n) == a + [LF] + b;
    hide Frame;
    BreaksAfter(a, b, rest);
  }

  lemma FramesStep(first: Bytes, rest: Bytes)
    requires Break(first + [LF, LF] + rest) == |first|
    ensures Frames(first + [LF, LF] + rest) == [first] + Frames(rest)
  {
    hide Break;
    var s := first + [LF, LF] + rest;
    assert s[..|first|] == first && s[|first| + 2..] == rest;
  }

  lemma WrittenBreaks(n: Named, rest: Bytes)
    requires Clean(n)
    ensures var s := Frame(n) + [LF, LF] + rest; Frames(s) == [Frame(n)] + Frames(rest)
  {
    FrameBreaks(n, rest);
    FramesStep(Frame(n), rest);
    hide *;
  }

  lemma {:induction false} WrittenFrames(events: seq<Named>)
    requires forall i :: 0 <= i < |events| ==> Clean(events[i])
    ensures Frames(Written(events)) == Framed(events)
  {
    if events != [] {
      WrittenFrames(events[1..]);
      WrittenBreaks(events[0], Written(events[1..]));
      hide Frames, Frame;
    }
  }

  /** The same, of a text that is only frames. */
  lemma WrittenSplits(events: seq<Named>)
    requires forall i :: 0 <= i < |events| ==> Clean(events[i])
    ensures Frames(Unix(Written(events))) == Framed(events)
  {
    WrittenIsUnix(events);
    UnixKeeps(Written(events));
    WrittenFrames(events);
  }
}
