/** What a provider's stream proves, told from the bytes a provider writes: which events complete a
    request, which decline it, and what the ledger makes of them. */
module Evidence {
  import opened Domain
  import opened Framing
  import R = Router
  import S = Sse
  import System
  import X = Transport

  const LIMIT: nat := 256 * 1024
  const CLOSING: Bytes := [91, 68, 79, 78, 69, 93]   // "[DONE]"

  /** A frame as a provider writes it: an object of this type under the event's own name. */
  ghost predicate Spoken(codec: S.Codec, n: Named, kind: string, response: S.Response) {
    && Clean(n) && |Frame(n)| + 2 <= LIMIT && n.data != CLOSING
    && codec.text(n.kind) == Some(kind) && codec.json(n.data + [LF]) == Some(S.Object(S.Text(kind), response))
  }

  /** A frame that is about something else. */
  ghost predicate Quiet(codec: S.Codec, protocol: S.Protocol, n: Named) {
    exists kind, response :: Spoken(codec, n, kind, response) && !S.Completes(protocol, kind, response)
                             && !S.Declines(protocol, kind, response) && !S.Lies(protocol, kind, response)
  }

  // ------------------------------------------------------------------ one frame's bytes

  lemma {:induction false} LineGrows(codec: S.Codec, protocol: S.Protocol, p: S.Parser, line: Bytes)
    requires p.line == [] && LF !in line && p.frameBytes + |line| <= LIMIT
    ensures S.Feed(codec, protocol, p, line) == S.Fed(p.(line := line, frameBytes := p.frameBytes + |line|), S.More)
  {
    if line != [] {
      var before, last := line[..|line| - 1], line[|line| - 1];
      LineGrows(codec, protocol, p, before);
      assert line == before + [last] && last in line;
    }
  }

  lemma LineCloses(codec: S.Codec, protocol: S.Protocol, p: S.Parser, raw: Bytes, n: nat)
    requires p.line == [] && n < LIMIT
    ensures S.TakeByte(codec, protocol, p.(line := raw, frameBytes := n), LF)
      == S.TakeLine(codec, protocol, p.(frameBytes := n + 1), S.Strip(raw))
  {
    hide S.TakeLine, S.Strip;
  }

  lemma LineEnds(codec: S.Codec, protocol: S.Protocol, p: S.Parser, raw: Bytes)
    requires p.line == [] && LF !in raw && p.frameBytes + |raw| + 1 <= LIMIT
    ensures S.Feed(codec, protocol, p, raw + [LF])
      == S.TakeLine(codec, protocol, p.(frameBytes := p.frameBytes + |raw| + 1), S.Strip(raw))
  {
    LineGrows(codec, protocol, p, raw);
    LineCloses(codec, protocol, p, raw, p.frameBytes + |raw|);
    hide S.TakeLine, S.Strip, S.TakeByte;
    var chunk := raw + [LF];
    assert chunk[..|chunk| - 1] == raw && chunk[|chunk| - 1] == LF;
  }

  /** A line without a carriage return reaches the parser whole. */
  lemma LineFeeds(codec: S.Codec, protocol: S.Protocol, p: S.Parser, line: Bytes)
    requires p.line == [] && LF !in line && CR !in line && p.frameBytes + |line| + 1 <= LIMIT
    ensures S.Feed(codec, protocol, p, line + [LF])
      == S.TakeLine(codec, protocol, p.(frameBytes := p.frameBytes + |line| + 1), line)
  {
    LineEnds(codec, protocol, p, line);
    assert S.Strip(line) == line by {
      if line != [] { assert line[|line| - 1] in line; }
    }
    hide S.TakeLine, S.Feed;
  }

  /** A carriage return before the line feed belongs to the line end. */
  lemma ReturnFeeds(codec: S.Codec, protocol: S.Protocol, p: S.Parser, line: Bytes)
    requires p.line == [] && LF !in line && p.frameBytes + |line| + 2 <= LIMIT
    ensures S.Feed(codec, protocol, p, line + [13, LF])
      == S.TakeLine(codec, protocol, p.(frameBytes := p.frameBytes + |line| + 2), line)
  {
    hide S.TakeLine, S.Feed;
    var raw := line + [13];
    LineEnds(codec, protocol, p, raw);
    assert S.Strip(raw) == line;
    assert line + [13, LF] == raw + [LF];
  }

  lemma {:induction false} ColonAt(name: Bytes, rest: Bytes)
    requires 58 !in name
    ensures S.IndexOf(name + [58] + rest, 58) == |name|
  {
    if name != [] {
      ColonAt(name[1..], rest);
      assert (name + [58] + rest)[1..] == name[1..] + [58] + rest;
    }
  }

  lemma FieldReads(name: Bytes, value: Bytes)
    requires 58 !in name && name != []
    ensures var line := name + [58, 32] + value;
      S.FieldName(line) == name && S.FieldValue(line) == value && S.Carries(line)
  {
    var line := name + [58, 32] + value;
    assert line == name + [58] + ([32] + value);
    ColonAt(name, [32] + value);
    hide S.IndexOf;
    assert line[..|name|] == name && line[|name| + 1] == 32 && line[|name| + 2..] == value;
  }

  /** What a line adds to its frame: a comment or any other field nothing; data its value and a line
      feed; a name itself, if it is text, in place of an earlier one. One space after the colon is not
      part of the value, and a name alone has an empty one. */
  ghost predicate Adds(codec: S.Codec, p: S.Parser, line: Bytes, f: S.Fed)
    requires line != []
  {
    if line[0] == 58 then f == S.Fed(p, S.More)
    else
      exists name: Bytes, value: Bytes :: Reads(line, name, value)
        && if name == [100, 97, 116, 97] then f == S.Fed(p.(data := p.data + value + [10]), S.More)
           else if name != [101, 118, 101, 110, 116] then f == S.Fed(p, S.More)
           else if codec.text(value).Some? then f == S.Fed(p.(event := Some(value)), S.More)
           else f == S.Fed(p, S.Bad)
  }

  ghost predicate Reads(line: Bytes, name: Bytes, value: Bytes) {
    && 58 !in name
    && (|| (line == name && value == [])
        || line == name + [58, 32] + value
        || (line == name + [58] + value && (value == [] || value[0] != 32)))
  }

  lemma Colon(line: Bytes, i: nat)
    requires i < |line| && line[i] == 58
    ensures line == line[..i] + [58] + line[i + 1..]
    ensures i + 1 < |line| && line[i + 1] == 32 ==> line == line[..i] + [58, 32] + line[i + 2..]
  {
  }

  lemma LineReads(line: Bytes)
    ensures Reads(line, S.FieldName(line), S.FieldValue(line))
  {
    var i := S.IndexOf(line, 58);
    hide S.IndexOf;
    if i == |line| {
      assert line[..i] == line;
    } else {
      Colon(line, i);
      assert i + 1 < |line| && line[i + 1] != 32 ==> line[i + 1..][0] != 32;
    }
  }

  lemma LineAdds(codec: S.Codec, protocol: S.Protocol, p: S.Parser, line: Bytes)
    requires line != []
    ensures Adds(codec, p, line, S.TakeLine(codec, protocol, p, line))
  {
    LineReads(line);
    hide Reads, S.IndexOf, S.FieldName, S.FieldValue;
  }

  /** There is one way to read a line. */
  lemma OneReading(line: Bytes, name: Bytes, value: Bytes)
    requires Reads(line, name, value)
    ensures S.FieldName(line) == name && S.FieldValue(line) == value
  {
    if line == name && value == [] {
      NoColon(name);
    } else if line == name + [58, 32] + value {
      assert line == name + [58] + ([32] + value);
      ColonAt(name, [32] + value);
      assert line[|name| + 1] == 32 && line[|name| + 2..] == value;
    } else {
      ColonAt(name, value);
      assert line[|name| + 1..] == value;
    }
  }

  lemma {:induction false} NoColon(name: Bytes)
    requires 58 !in name
    ensures S.IndexOf(name, 58) == |name|
  {
    if name != [] { NoColon(name[1..]); }
  }

  function NameText(n: Named): Bytes { EVENT_COLON + [SPACE] + n.kind }

  function DataText(n: Named): Bytes { DATA_COLON + [SPACE] + n.data }

  lemma FrameParts(n: Named)
    ensures Frame(n) + [LF] == NameText(n) + [LF] + (DataText(n) + [LF])
    ensures |Frame(n)| == |NameText(n)| + 1 + |DataText(n)|
  {
  }

  /** A name line is remembered, a data line is gathered, and a blank line has the frame judged. */
  lemma NameFeeds(codec: S.Codec, protocol: S.Protocol, p: S.Parser, n: Named)
    requires p.line == [] && Clean(n) && codec.text(n.kind).Some?
    requires p.frameBytes + |NameText(n)| + 1 <= LIMIT
    ensures S.Feed(codec, protocol, p, NameText(n) + [LF])
      == S.Fed(p.(event := Some(n.kind), frameBytes := p.frameBytes + |NameText(n)| + 1), S.More)
  {
    var name: Bytes := [101, 118, 101, 110, 116];
    var line := EVENT_COLON + [SPACE] + n.kind;
    assert line == name + [58, 32] + n.kind;
    FieldReads(name, n.kind);
    LineFeeds(codec, protocol, p, line);
    hide S.Feed, S.FieldName, S.FieldValue, S.Carries;
  }

  lemma DataFeeds(codec: S.Codec, protocol: S.Protocol, p: S.Parser, n: Named)
    requires p.line == [] && Clean(n)
    requires p.frameBytes + |DataText(n)| + 1 <= LIMIT
    ensures S.Feed(codec, protocol, p, DataText(n) + [LF])
      == S.Fed(p.(data := p.data + n.data + [LF], frameBytes := p.frameBytes + |DataText(n)| + 1), S.More)
  {
    var name: Bytes := [100, 97, 116, 97];
    var line := DATA_COLON + [SPACE] + n.data;
    assert line == name + [58, 32] + n.data;
    FieldReads(name, n.data);
    LineFeeds(codec, protocol, p, line);
    hide S.Feed, S.FieldName, S.FieldValue, S.Carries;
  }

  /** A frame's two lines, gathered. */
  function Gathered(n: Named): S.Parser {
    S.FRESH.(event := Some(n.kind), data := n.data + [LF], frameBytes := |Frame(n)| + 1)
  }

  lemma LinesFeed(codec: S.Codec, protocol: S.Protocol, n: Named)
    requires Clean(n) && |Frame(n)| + 2 <= LIMIT && codec.text(n.kind).Some?
    ensures S.Feed(codec, protocol, S.FRESH, Frame(n) + [LF]) == S.Fed(Gathered(n), S.More)
  {
    hide S.Feed, Frame, NameText, DataText, Clean;
    FrameParts(n);
    NameFeeds(codec, protocol, S.FRESH, n);
    var p := S.FRESH.(event := Some(n.kind), frameBytes := |NameText(n)| + 1);
    DataFeeds(codec, protocol, p, n);
    S.FeedSplits(codec, protocol, S.FRESH, NameText(n) + [LF], DataText(n) + [LF]);
    assert [] + n.data == n.data;
  }

  /** The whole frame is judged by its own name and data, and nothing of it is kept. */
  lemma FrameFeeds(codec: S.Codec, protocol: S.Protocol, n: Named)
    requires Clean(n) && |Frame(n)| + 2 <= LIMIT && codec.text(n.kind).Some?
    ensures var f := S.Feed(codec, protocol, S.FRESH, Frame(n) + [LF, LF]);
      && f.status == S.Judge(codec, protocol, Some(n.kind), n.data + [LF])
      && (!f.status.Bad? ==> f.parser == S.FRESH)
  {
    LinesFeed(codec, protocol, n);
    LineFeeds(codec, protocol, Gathered(n), []);
    S.FeedSplits(codec, protocol, S.FRESH, Frame(n) + [LF], [LF]);
    hide S.Feed, S.Judge, Frame;
    assert [] + [LF] == [LF] && Frame(n) + [LF, LF] == Frame(n) + [LF] + [LF];
  }

  /** An unbroken line past the limit is a fault. */
  lemma TooLong(codec: S.Codec, protocol: S.Protocol, line: Bytes)
    requires LF !in line && |line| > LIMIT
    ensures S.Batch(codec, protocol, line).Bad?
  {
    var first, rest := line[..LIMIT], line[LIMIT..];
    LineGrows(codec, protocol, S.FRESH, first);
    S.FeedSplits(codec, protocol, S.FRESH, first, rest);
    S.FeedSplits(codec, protocol, S.FRESH.(line := first, frameBytes := LIMIT), [rest[0]], rest[1..]);
    assert [rest[0]][..0] == [];
    assert line == first + rest && rest == [rest[0]] + rest[1..];
    S.ParserRefinesBatch(codec, protocol, line);
    hide S.Batch;
  }

  /** A frame alone completes or declines a request exactly when its own event does. */
  lemma FrameProves(codec: S.Codec, protocol: S.Protocol, n: Named, kind: string, response: S.Response)
    requires Spoken(codec, n, kind, response)
    ensures var f := S.Feed(codec, protocol, S.FRESH, Frame(n) + [LF, LF]);
      && (f.status == S.Done(Settlement.Succeeded) <==> S.Completes(protocol, kind, response))
      && (f.status == S.Done(Settlement.Rejected) <==> S.Declines(protocol, kind, response))
      && (f.status.Bad? <==> S.Lies(protocol, kind, response))
      && (f.status.More? ==> f.parser == S.FRESH)
  {
    FrameFeeds(codec, protocol, n);
    var data := n.data + [LF];
    assert data[..|data| - 1] == n.data && [91, 68, 79, 78, 69, 93, 10][..6] == CLOSING;
    assert S.Tells(codec, Some(n.kind), data, kind, response);
    S.JudgeMeans(codec, protocol, Some(n.kind), data);
    hide S.Feed, S.Judge, Frame;
  }

  // ------------------------------------------------------------------------ whole streams

  lemma {:induction false} QuietFeeds(codec: S.Codec, protocol: S.Protocol, frames: seq<Named>)
    requires forall i :: 0 <= i < |frames| ==> Quiet(codec, protocol, frames[i])
    ensures S.Feed(codec, protocol, S.FRESH, Written(frames)) == S.Fed(S.FRESH, S.More)
  {
    if frames != [] {
      QuietFeeds(codec, protocol, frames[1..]);
      assert Quiet(codec, protocol, frames[0]);
      QuietFrame(codec, protocol, frames[0]);
      S.FeedSplits(codec, protocol, S.FRESH, Frame(frames[0]) + [LF, LF], Written(frames[1..]));
      hide S.Feed, Frame, Quiet;
    }
  }

  lemma QuietFrame(codec: S.Codec, protocol: S.Protocol, n: Named)
    requires Quiet(codec, protocol, n)
    ensures S.Feed(codec, protocol, S.FRESH, Frame(n) + [LF, LF]) == S.Fed(S.FRESH, S.More)
  {
    var kind, response :| Spoken(codec, n, kind, response) && !S.Completes(protocol, kind, response)
                          && !S.Declines(protocol, kind, response) && !S.Lies(protocol, kind, response);
    FrameProves(codec, protocol, n, kind, response);
    DoneOnly(codec, protocol, n);
    hide S.Feed;
  }

  lemma DoneOnly(codec: S.Codec, protocol: S.Protocol, n: Named)
    ensures var status := S.Feed(codec, protocol, S.FRESH, Frame(n) + [LF, LF]).status;
      status.Done? ==> status.outcome.Succeeded? || status.outcome.Rejected?
  {
    S.ParserRefinesBatch(codec, protocol, Frame(n) + [LF, LF]);
    S.DoneIsEvidence(codec, protocol, Frame(n) + [LF, LF]);
    hide S.Feed, S.Batch;
  }

  /** After any number of events about something else, the first one that completes or declines
      the request proves exactly that. */
  lemma StreamProves(codec: S.Codec, protocol: S.Protocol, frames: seq<Named>, last: Named, kind: string, response: S.Response)
    requires forall i :: 0 <= i < |frames| ==> Quiet(codec, protocol, frames[i])
    requires Spoken(codec, last, kind, response)
    ensures var status := S.Batch(codec, protocol, Written(frames) + (Frame(last) + [LF, LF]));
      && (status == S.Done(Settlement.Succeeded) <==> S.Completes(protocol, kind, response))
      && (status == S.Done(Settlement.Rejected) <==> S.Declines(protocol, kind, response))
      && (status.Bad? <==> S.Lies(protocol, kind, response))
  {
    QuietFeeds(codec, protocol, frames);
    FrameProves(codec, protocol, last, kind, response);
    S.FeedSplits(codec, protocol, S.FRESH, Written(frames), Frame(last) + [LF, LF]);
    S.ParserRefinesBatch(codec, protocol, Written(frames) + (Frame(last) + [LF, LF]));
    hide *;
  }

  /** However the network cuts those bytes, the attempt ends as that event says: succeeded exactly
      on completion, rejected exactly when declined, uncertain otherwise. */
  lemma StreamEnds(codec: S.Codec, protocol: S.Protocol, frames: seq<Named>, last: Named, kind: string, response: S.Response,
      body: seq<Option<Bytes>>, items: seq<System.Item>)
    requires forall i :: 0 <= i < |frames| ==> Quiet(codec, protocol, frames[i])
    requires Spoken(codec, last, kind, response) && X.Forwarded(codec, protocol, body, items)
    requires S.Concat(X.Chunks(body)) == Written(frames) + (Frame(last) + [LF, LF])
    ensures R.Verdict(items).Succeeded? <==> S.Completes(protocol, kind, response)
    ensures R.Verdict(items).Rejected? <==> S.Declines(protocol, kind, response)
    ensures R.Verdict(items).Uncertain? || R.Verdict(items).Succeeded? || R.Verdict(items).Rejected?
  {
    StreamProves(codec, protocol, frames, last, kind, response);
    R.StreamSettles(codec, protocol, body, items);
    S.DoneIsEvidence(codec, protocol, S.Concat(X.Chunks(body)));
    hide S.Batch, S.Concat, X.Chunks, X.Forwarded, R.Verdict, R.Handed, Written, Frame, Spoken, Quiet, S.Completes, S.Declines, S.Lies;
  }
}
