/** Terminal evidence in an event stream: frame boundaries, never substrings. */
module Sse {
  import opened Domain

  const LF: bv8 := 10
  const CR: bv8 := 13
  const COLON: bv8 := 58
  const SPACE: bv8 := 32
  const DATA: Bytes := [100, 97, 116, 97]
  const EVENT: Bytes := [101, 118, 101, 110, 116]
  const DONE: Bytes := [91, 68, 79, 78, 69, 93, 10]  // "[DONE]" and its line end
  const MAX_EVENT_BYTES: nat := 256 * 1024

  datatype Protocol = Responses | Messages

  function ProtocolOf(product: Product): Protocol {
    if product.CodexSubscription? then Responses else Messages
  }

  /** A member of a JSON object, as far as frames are judged by it. */
  datatype Member = Missing | Text(text: string) | Other

  datatype Response = NoResponse | ResponseObject(status: Member) | OtherResponse

  datatype Json = Object(kind: Member, response: Response) | NotObject

  /** Decoding is the environment's: any function from bytes may stand here. */
  datatype Codec = Codec(json: Bytes -> Option<Json>, text: Bytes -> Option<string>)

  datatype Status = More | Done(outcome: Settlement) | Bad

  // ------------------------------------------------------------------ judging a frame

  function Expected(kind: string): Option<string> {
    if kind == "response.completed" then Some("completed")
    else if kind == "response.failed" then Some("failed")
    else if kind == "response.incomplete" then Some("incomplete")
    else None
  }

  function TerminalKind(protocol: Protocol, kind: string): Option<Settlement> {
    match protocol
    case Responses =>
      if kind == "response.completed" then Some(Settlement.Succeeded)
      else if kind == "response.failed" || kind == "response.incomplete" then Some(Settlement.Rejected)
      else None
    case Messages =>
      if kind == "message_stop" then Some(Settlement.Succeeded)
      else if kind == "error" then Some(Settlement.Rejected)
      else None
  }

  /** A terminal response object that does not carry the status its event announces. */
  predicate Contradicts(protocol: Protocol, kind: string, response: Response) {
    && protocol.Responses? && Expected(kind).Some? && !response.NoResponse?
    && (response.OtherResponse?
        || (!response.status.Missing? && response.status != Text(Expected(kind).value)))
  }

  /** What a complete frame proves. */
  function Judge(codec: Codec, protocol: Protocol, event: Option<Bytes>, data: Bytes): Status
  {
    if data == [] || data == DONE then More
    else
      match codec.json(data)
      case None => Bad
      case Some(NotObject) => Bad
      case Some(Object(kind, response)) =>
        match kind
        case Missing => More
        case Other => Bad
        case Text(name) =>
          if event.Some? && event.value != [] && codec.text(event.value) != Some(name) then Bad
          else if Contradicts(protocol, name, response) then Bad
          else match TerminalKind(protocol, name)
            case Some(outcome) => Done(outcome)
            case None => More
  }

  // ------------------------------------------------------- what a frame proves, said outright

  /** The frame's data is an object of this type, and its event name, if any, agrees. */
  predicate Tells(codec: Codec, event: Option<Bytes>, data: Bytes, kind: string, response: Response) {
    && data != [] && data != [91, 68, 79, 78, 69, 93, 10]
    && codec.json(data) == Some(Object(Text(kind), response))
    && (event.Some? && event.value != [] ==> codec.text(event.value) == Some(kind))
  }

  /** The response object, if there is one, has this status, if it has any. */
  predicate Agrees(response: Response, status: string) {
    match response
    case NoResponse => true
    case ResponseObject(Missing) => true
    case ResponseObject(Text(text)) => text == status
    case _ => false
  }

  predicate Completes(protocol: Protocol, kind: string, response: Response) {
    match protocol
    case Responses => kind == "response.completed" && Agrees(response, "completed")
    case Messages => kind == "message_stop"
  }

  predicate Declines(protocol: Protocol, kind: string, response: Response) {
    match protocol
    case Responses =>
      || (kind == "response.failed" && Agrees(response, "failed"))
      || (kind == "response.incomplete" && Agrees(response, "incomplete"))
    case Messages => kind == "error"
  }

  /** A terminal response event whose response says something else. */
  predicate Lies(protocol: Protocol, kind: string, response: Response) {
    && protocol.Responses?
    && (|| (kind == "response.completed" && !Agrees(response, "completed"))
        || (kind == "response.failed" && !Agrees(response, "failed"))
        || (kind == "response.incomplete" && !Agrees(response, "incomplete")))
  }

  /** A frame without data, the closing mark, or an object without a type. */
  predicate SaysNothing(codec: Codec, data: Bytes) {
    || data == [] || data == [91, 68, 79, 78, 69, 93, 10]
    || (codec.json(data).Some? && codec.json(data).value.Object? && codec.json(data).value.kind.Missing?)
  }

  /** What is judged of a frame is what it says: success and rejection by its own type only,
      nothing of a frame that says nothing, and a fault in everything else. */
  lemma JudgeMeans(codec: Codec, protocol: Protocol, event: Option<Bytes>, data: Bytes)
    ensures var status := Judge(codec, protocol, event, data);
      && (forall kind, response :: Tells(codec, event, data, kind, response) ==>
            && (status == Done(Settlement.Succeeded) <==> Completes(protocol, kind, response))
            && (status == Done(Settlement.Rejected) <==> Declines(protocol, kind, response))
            && (status.Bad? <==> Lies(protocol, kind, response)))
      && (SaysNothing(codec, data) ==> status.More?)
      && ((forall kind, response :: !Tells(codec, event, data, kind, response)) && !SaysNothing(codec, data) ==> status.Bad?)
      && (status.Done? ==> status.outcome.Succeeded? || status.outcome.Rejected?)
  {
    var parsed := codec.json(data);
    if parsed.Some? && parsed.value.Object? && parsed.value.kind.Text? {
      assert Tells(codec, event, data, parsed.value.kind.text, parsed.value.response)
        || !(data != [] && data != DONE
             && (event.Some? && event.value != [] ==> codec.text(event.value) == Some(parsed.value.kind.text)));
    }
  }

  // ------------------------------------------------------------------------ one line

  function IndexOf(s: Bytes, b: bv8): (i: nat)
    ensures i <= |s|
    ensures b !in s[..i]
    ensures i < |s| ==> s[i] == b
  {
    if s == [] || s[0] == b then 0 else 1 + IndexOf(s[1..], b)
  }

  function Strip(line: Bytes): Bytes {
    if line != [] && line[|line| - 1] == CR then line[..|line| - 1] else line
  }

  function FieldName(line: Bytes): Bytes { line[..IndexOf(line, COLON)] }

  function FieldValue(line: Bytes): Bytes {
    var i := IndexOf(line, COLON);
    if i == |line| then []
    else if i + 1 < |line| && line[i + 1] == SPACE then line[i + 2..]
    else line[i + 1..]
  }

  /** Neither blank nor a comment. */
  predicate Carries(line: Bytes) { line != [] && line[0] != COLON }

  // -------------------------------------------------------- the input as a whole

  /** The complete lines of a text, without their line ends. */
  function Lines(s: Bytes): seq<Bytes> {
    var i := IndexOf(s, LF);
    if i == |s| then [] else [Strip(s[..i])] + Lines(s[i + 1..])
  }

  /** What follows the last line end. */
  function Tail(s: Bytes): Bytes {
    var i := IndexOf(s, LF);
    if i == |s| then s else Tail(s[i + 1..])
  }

  function DataOf(lines: seq<Bytes>): Bytes {
    if lines == [] then []
    else
      (if Carries(lines[0]) && FieldName(lines[0]) == DATA then FieldValue(lines[0]) + [LF] else [])
      + DataOf(lines[1..])
  }

  /** The last event field wins. */
  function EventOf(lines: seq<Bytes>): Option<Bytes> {
    if lines == [] then None
    else
      var line := lines[|lines| - 1];
      if Carries(line) && FieldName(line) == EVENT then Some(FieldValue(line))
      else EventOf(lines[..|lines| - 1])
  }

  /** Every event field is text. */
  predicate Readable(codec: Codec, lines: seq<Bytes>) {
    forall i :: 0 <= i < |lines| && Carries(lines[i]) && FieldName(lines[i]) == EVENT ==>
      codec.text(FieldValue(lines[i])).Some?
  }

  predicate Acceptable(codec: Codec, s: Bytes) {
    |s| <= MAX_EVENT_BYTES && Readable(codec, Lines(s))
  }

  /** A line end that closes a blank line ends the frame. */
  predicate EndsFrame(s: Bytes, n: nat) {
    0 < n <= |s| && s[n - 1] == LF && Strip(Tail(s[..n - 1])) == []
  }

  /** Where the first frame ends, or None while it is still open. */
  function FrameEnd(s: Bytes, from: nat): (n: Option<nat>)
    requires from <= |s|
    ensures n.Some? ==> from < n.value && EndsFrame(s, n.value)
    ensures forall k :: from < k < (if n.Some? then n.value else |s| + 1) ==> !EndsFrame(s, k)
    decreases |s| - from
  {
    if from == |s| then None
    else if EndsFrame(s, from + 1) then Some(from + 1)
    else FrameEnd(s, from + 1)
  }

  /** What the whole input proves: frame by frame, until one is terminal or malformed. */
  function Batch(codec: Codec, protocol: Protocol, s: Bytes): Status
    decreases |s|
  {
    match FrameEnd(s, 0)
    case None => if Acceptable(codec, s) then More else Bad
    case Some(n) =>
      var frame := s[..n];
      if !Acceptable(codec, frame) then Bad
      else
        match Judge(codec, protocol, EventOf(Lines(frame)), DataOf(Lines(frame)))
        case More => Batch(codec, protocol, s[n..])
        case status => status
  }

  /** Only success and rejection are ever proven. */
  lemma {:induction false} DoneIsEvidence(codec: Codec, protocol: Protocol, s: Bytes)
    ensures Batch(codec, protocol, s).Done? ==> Batch(codec, protocol, s).outcome.Evidence()
    decreases |s|
  {
    if FrameEnd(s, 0).Some? { DoneIsEvidence(codec, protocol, s[FrameEnd(s, 0).value..]); }
  }

  /** The frame still open at the end of an input that proves nothing yet. */
  function Open(s: Bytes): Bytes
    decreases |s|
  {
    match FrameEnd(s, 0)
    case None => s
    case Some(n) => Open(s[n..])
  }

  // ----------------------------------------------------------------- byte by byte

  datatype Parser = Parser(line: Bytes, data: Bytes, event: Option<Bytes>, frameBytes: nat)

  const FRESH := Parser([], [], None, 0)

  datatype Fed = Fed(parser: Parser, status: Status)

  /** A complete line reaches the parser. */
  function TakeLine(codec: Codec, protocol: Protocol, p: Parser, line: Bytes): Fed {
    if line == [] then
      var status := Judge(codec, protocol, p.event, p.data);
      Fed(FRESH.(frameBytes := if status.Bad? then p.frameBytes else 0), status)
    else if !Carries(line) then Fed(p, More)
    else if FieldName(line) == DATA then Fed(p.(data := p.data + FieldValue(line) + [LF]), More)
    else if FieldName(line) == EVENT then
      if codec.text(FieldValue(line)).None? then Fed(p, Bad)
      else Fed(p.(event := Some(FieldValue(line))), More)
    else Fed(p, More)
  }

  function TakeByte(codec: Codec, protocol: Protocol, p: Parser, b: bv8): Fed {
    var q := p.(frameBytes := p.frameBytes + 1);
    if q.frameBytes > MAX_EVENT_BYTES then Fed(q, Bad)
    else if b != LF then Fed(q.(line := q.line + [b]), More)
    else TakeLine(codec, protocol, q.(line := []), Strip(q.line))
  }

  /** Bytes are taken in order until one settles the matter. */
  function Feed(codec: Codec, protocol: Protocol, p: Parser, chunk: Bytes): Fed {
    if chunk == [] then Fed(p, More)
    else
      var before := Feed(codec, protocol, p, chunk[..|chunk| - 1]);
      if before.status.More? then TakeByte(codec, protocol, before.parser, chunk[|chunk| - 1]) else before
  }

  function FeedAll(codec: Codec, protocol: Protocol, p: Parser, chunks: seq<Bytes>): Fed {
    if chunks == [] then Fed(p, More)
    else
      var before := FeedAll(codec, protocol, p, chunks[..|chunks| - 1]);
      if before.status.More? then Feed(codec, protocol, before.parser, chunks[|chunks| - 1]) else before
  }

  function Concat(chunks: seq<Bytes>): Bytes {
    if chunks == [] then [] else Concat(chunks[..|chunks| - 1]) + chunks[|chunks| - 1]
  }

  // ------------------------------------------------- chunks do not matter

  lemma {:induction false} FeedSplits(codec: Codec, protocol: Protocol, p: Parser, a: Bytes, b: Bytes)
    ensures var first := Feed(codec, protocol, p, a);
      Feed(codec, protocol, p, a + b) == if first.status.More? then Feed(codec, protocol, first.parser, b) else first
  {
    if b == [] {
      assert a + b == a;
    } else {
      FeedSplits(codec, protocol, p, a, b[..|b| - 1]);
      assert (a + b)[..|a + b| - 1] == a + b[..|b| - 1];
    }
  }

  /** However the network cuts the bytes, the same bytes prove the same thing and leave the
      same parser. */
  lemma {:induction false} ChunksDoNotMatter(codec: Codec, protocol: Protocol, p: Parser, chunks: seq<Bytes>)
    ensures FeedAll(codec, protocol, p, chunks) == Feed(codec, protocol, p, Concat(chunks))
  {
    if chunks != [] {
      var rest := chunks[..|chunks| - 1];
      ChunksDoNotMatter(codec, protocol, p, rest);
      FeedSplits(codec, protocol, p, Concat(rest), chunks[|chunks| - 1]);
    }
  }

  // ---------------------------------------------------- lines, from either end

  lemma {:induction false} IndexOfLast(s: Bytes, b: bv8, last: bv8)
    ensures IndexOf(s + [last], b) == if IndexOf(s, b) < |s| then IndexOf(s, b) else if last == b then |s| else |s| + 1
  {
    if s != [] && s[0] != b {
      IndexOfLast(s[1..], b, last);
      assert (s + [last])[1..] == s[1..] + [last];
    }
  }

  /** A text split at its first line end. */
  lemma LinesSplit(first: Bytes, rest: Bytes)
    requires IndexOf(first + [LF] + rest, LF) == |first|
    ensures Lines(first + [LF] + rest) == [Strip(first)] + Lines(rest) && Tail(first + [LF] + rest) == Tail(rest)
  {
    var s := first + [LF] + rest;
    hide IndexOf;
    assert s[..|first|] == first && s[|first| + 1..] == rest;
  }

  lemma LinesOfOpen(s: Bytes)
    requires IndexOf(s, LF) == |s|
    ensures Lines(s) == [] && Tail(s) == s
  {
    hide IndexOf;
  }

  lemma {:induction false} LinesLast(s: Bytes, b: bv8)
    ensures b != LF ==> Lines(s + [b]) == Lines(s) && Tail(s + [b]) == Tail(s) + [b]
    ensures b == LF ==> Lines(s + [b]) == Lines(s) + [Strip(Tail(s))] && Tail(s + [b]) == []
  {
    var i := IndexOf(s, LF);
    IndexOfLast(s, LF, b);
    hide Lines, Tail, Strip;
    if i == |s| {
      LinesOfOpen(s);
      if b == LF {
        LinesOfOpen([]);
        assert s + [b] == s + [LF] + [];
        LinesSplit(s, []);
        assert [] + [Strip(s)] == [Strip(s)] + [];
      } else {
        LinesOfOpen(s + [b]);
      }
    } else {
      var rest := s[i + 1..];
      LinesLast(rest, b);
      assert s == s[..i] + [LF] + rest && s + [b] == s[..i] + [LF] + (rest + [b]);
      LinesSplit(s[..i], rest);
      LinesSplit(s[..i], rest + [b]);
      hide IndexOf;
      assert [Strip(s[..i])] + (Lines(rest) + [Strip(Tail(rest))]) == [Strip(s[..i])] + Lines(rest) + [Strip(Tail(rest))];
    }
  }

  lemma {:induction false} DataLast(lines: seq<Bytes>, line: Bytes)
    ensures DataOf(lines + [line]) ==
      DataOf(lines) + if Carries(line) && FieldName(line) == DATA then FieldValue(line) + [LF] else []
  {
    if lines == [] {
      assert [line][1..] == [];
    } else {
      DataLast(lines[1..], line);
      assert (lines + [line])[1..] == lines[1..] + [line];
    }
  }

  lemma ReadableLast(codec: Codec, lines: seq<Bytes>, line: Bytes)
    ensures Readable(codec, lines + [line]) <==>
      Readable(codec, lines) && (Carries(line) && FieldName(line) == EVENT ==> codec.text(FieldValue(line)).Some?)
  {
    var more := lines + [line];
    assert more[|lines|] == line;
    assert forall i :: 0 <= i < |lines| ==> more[i] == lines[i];
  }

  // ---------------------------------------------------------- refinement of the batch

  /** What the parser remembers of an open frame. */
  function Remembered(s: Bytes): Parser {
    Parser(Tail(s), DataOf(Lines(s)), EventOf(Lines(s)), |s|)
  }

  predicate NoFrameEnd(s: Bytes) {
    forall k :: 0 < k <= |s| ==> !EndsFrame(s, k)
  }

  lemma EndsFramePrefix(s: Bytes, t: Bytes, k: nat)
    requires k <= |s| && s <= t
    ensures EndsFrame(s, k) <==> EndsFrame(t, k)
  {
    if k > 0 { assert s[..k - 1] == t[..k - 1]; }
  }

  lemma NoFrameEndPrefix(s: Bytes, b: bv8)
    requires forall k :: 0 < k <= |s| ==> !EndsFrame(s + [b], k)
    ensures NoFrameEnd(s)
  {
    forall k | 0 < k <= |s|
      ensures !EndsFrame(s, k)
    {
      EndsFramePrefix(s, s + [b], k);
    }
  }

  /** One more line inside a frame. */
  lemma OpenLine(codec: Codec, protocol: Protocol, p: Parser, lines: seq<Bytes>, line: Bytes)
    requires line != [] && p.line == [] && p.data == DataOf(lines) && p.event == EventOf(lines)
    requires Readable(codec, lines)
    ensures var more := lines + [line]; var f := TakeLine(codec, protocol, p, line);
      if Readable(codec, more) then f == Fed(Parser([], DataOf(more), EventOf(more), p.frameBytes), More)
      else f.status.Bad?
  {
    DataLast(lines, line);
    ReadableLast(codec, lines, line);
    assert (lines + [line])[..|lines|] == lines;
  }

  /** One more byte inside a frame. */
  lemma OpenByte(codec: Codec, protocol: Protocol, s: Bytes, b: bv8)
    requires Acceptable(codec, s) && !EndsFrame(s + [b], |s| + 1)
    ensures var t := s + [b]; var f := TakeByte(codec, protocol, Remembered(s), b);
      if Acceptable(codec, t) then f == Fed(Remembered(t), More) else f.status.Bad?
  {
    var t := s + [b];
    LinesLast(s, b);
    if b == LF {
      assert t[..|t| - 1] == s;
      var line := Strip(Tail(s));
      OpenLine(codec, protocol, Parser([], DataOf(Lines(s)), EventOf(Lines(s)), |s| + 1), Lines(s), line);
      hide Readable, DataOf, EventOf, TakeLine;
    }
  }

  lemma UnacceptableStays(codec: Codec, s: Bytes, b: bv8)
    requires !Acceptable(codec, s)
    ensures !Acceptable(codec, s + [b])
  {
    LinesLast(s, b);
    if b == LF { ReadableLast(codec, Lines(s), Strip(Tail(s))); }
  }

  lemma {:induction false} OpenFrame(codec: Codec, protocol: Protocol, s: Bytes)
    requires NoFrameEnd(s)
    ensures var f := Feed(codec, protocol, FRESH, s);
      if Acceptable(codec, s) then f == Fed(Remembered(s), More) else f.status.Bad?
  {
    if s == [] {
      assert Lines(s) == [];
    } else {
      var h, b := s[..|s| - 1], s[|s| - 1];
      assert s == h + [b];
      NoFrameEndPrefix(h, b);
      OpenFrame(codec, protocol, h);
      if Acceptable(codec, h) {
        OpenByte(codec, protocol, h, b);
      } else {
        UnacceptableStays(codec, h, b);
      }
    }
  }

  lemma BlankLine(codec: Codec, lines: seq<Bytes>)
    ensures var more := lines + [[]];
      DataOf(more) == DataOf(lines) && EventOf(more) == EventOf(lines) && (Readable(codec, more) <==> Readable(codec, lines))
  {
    DataLast(lines, []);
    ReadableLast(codec, lines, []);
    assert (lines + [[]])[..|lines|] == lines;
  }

  /** The byte that closes a frame. */
  lemma ClosingByte(codec: Codec, protocol: Protocol, h: Bytes)
    requires Acceptable(codec, h) && Strip(Tail(h)) == []
    ensures var s := h + [LF]; var f := TakeByte(codec, protocol, Remembered(h), LF);
      if !Acceptable(codec, s) then f.status.Bad?
      else
        var status := Judge(codec, protocol, EventOf(Lines(s)), DataOf(Lines(s)));
        f.status == status && (!status.Bad? ==> f.parser == FRESH)
  {
    LinesLast(h, LF);
    BlankLine(codec, Lines(h));
    hide Readable, DataOf, EventOf, Judge;
  }

  lemma ClosedFrame(codec: Codec, protocol: Protocol, s: Bytes)
    requires EndsFrame(s, |s|) && NoFrameEnd(s[..|s| - 1])
    ensures var f := Feed(codec, protocol, FRESH, s);
      if !Acceptable(codec, s) then f.status.Bad?
      else
        var status := Judge(codec, protocol, EventOf(Lines(s)), DataOf(Lines(s)));
        f.status == status && (!status.Bad? ==> f.parser == FRESH)
  {
    var h := s[..|s| - 1];
    assert s == h + [LF];
    OpenFrame(codec, protocol, h);
    if Acceptable(codec, h) {
      ClosingByte(codec, protocol, h);
    } else {
      UnacceptableStays(codec, h, LF);
    }
    hide Acceptable, Judge, TakeByte;
  }

  /** The incremental parser decides exactly what the whole input, cut into frames, decides;
      while nothing is decided it remembers exactly the open frame. */
  lemma {:induction false} ParserRefinesBatch(codec: Codec, protocol: Protocol, s: Bytes)
    ensures var f := Feed(codec, protocol, FRESH, s);
      && f.status == Batch(codec, protocol, s)
      && (f.status.More? ==> f.parser == Remembered(Open(s)))
    decreases |s|
  {
    var end := FrameEnd(s, 0);
    if end.None? {
      OpenFrame(codec, protocol, s);
    } else {
      var frame, rest := s[..end.value], s[end.value..];
      assert s == frame + rest;
      var h := frame[..|frame| - 1];
      forall k | 0 < k <= |h|
        ensures !EndsFrame(h, k)
      {
        EndsFramePrefix(h, s, k);
      }
      EndsFramePrefix(frame, s, end.value);
      ClosedFrame(codec, protocol, frame);
      FeedSplits(codec, protocol, FRESH, frame, rest);
      ParserRefinesBatch(codec, protocol, rest);
    }
  }

  // ------------------------------------------------------------------------- memory

  function Held(p: Parser): nat {
    |p.line| + |p.data| + if p.event.Some? then |p.event.value| else 0
  }

  predicate Bounded(p: Parser) { Held(p) <= p.frameBytes <= MAX_EVENT_BYTES }

  /** What an input decides no later byte undoes. */
  lemma BatchSticks(codec: Codec, protocol: Protocol, s: Bytes, more: Bytes)
    requires !Batch(codec, protocol, s).More?
    ensures Batch(codec, protocol, s + more) == Batch(codec, protocol, s)
  {
    ParserRefinesBatch(codec, protocol, s);
    ParserRefinesBatch(codec, protocol, s + more);
    FeedSplits(codec, protocol, FRESH, s, more);
  }

  lemma LineBounds(line: Bytes)
    ensures |FieldValue(line)| <= |line|
    ensures FieldName(line) != [] ==> |FieldValue(line)| < |line|
  {
  }

  /** Buffered bytes never exceed the frame's bytes, and those never exceed the limit. */
  lemma {:induction false} MemoryIsBounded(codec: Codec, protocol: Protocol, p: Parser, chunk: Bytes)
    requires Bounded(p)
    ensures var f := Feed(codec, protocol, p, chunk); !f.status.Bad? ==> Bounded(f.parser)
  {
    if chunk != [] {
      MemoryIsBounded(codec, protocol, p, chunk[..|chunk| - 1]);
      var before := Feed(codec, protocol, p, chunk[..|chunk| - 1]);
      hide TakeByte, Bounded;
      if before.status.More? { ByteIsBounded(codec, protocol, before.parser, chunk[|chunk| - 1]); }
    }
  }

  lemma ByteIsBounded(codec: Codec, protocol: Protocol, p: Parser, b: bv8)
    requires Bounded(p)
    ensures var f := TakeByte(codec, protocol, p, b); !f.status.Bad? ==> Bounded(f.parser)
  {
    LineBounds(Strip(p.line));
    hide Judge, FieldName, FieldValue;
  }
}
