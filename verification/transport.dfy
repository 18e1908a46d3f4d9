/** The HTTP transport's stream: chunks forwarded unchanged, and the one that completes
    the first terminal frame marked as the proof it is. */
module Transport {
  import opened Domain
  import opened S = Sse
  import System

  // -------------------------------------------------------------- the running parser

  class TerminalParser {
    const codec: Codec
    const protocol: Protocol
    var line: Bytes
    var data: Bytes
    var event: Option<Bytes>
    var frameBytes: nat

    function State(): Parser
      reads this
    {
      Parser(line, data, event, frameBytes)
    }

    constructor (codec: Codec, protocol: Protocol)
      ensures State() == FRESH && this.codec == codec && this.protocol == protocol
    {
      this.codec, this.protocol := codec, protocol;
      line, data, event, frameBytes := [], [], None, 0;
    }

    /** Ok(None) is More, Ok(Some(_)) is Done and Err is Bad. */
    method Feed(chunk: Bytes) returns (status: Status)
      modifies this
      ensures Fed(State(), status) == S.Feed(codec, protocol, old(State()), chunk)
    {
      for i := 0 to |chunk|
        invariant Fed(State(), More) == S.Feed(codec, protocol, old(State()), chunk[..i])
      {
        ghost var before := State();
        status := TakeByte(chunk[i]);
        assert chunk[..i + 1][..i] == chunk[..i];
        assert Fed(State(), status) == S.Feed(codec, protocol, old(State()), chunk[..i + 1]);
        if !status.More? {
          FeedSplits(codec, protocol, old(State()), chunk[..i + 1], chunk[i + 1..]);
          assert chunk == chunk[..i + 1] + chunk[i + 1..];
          return;
        }
      }
      assert chunk[..|chunk|] == chunk;
      status := More;
    }

    /** The body of the loop over bytes. */
    method TakeByte(b: bv8) returns (status: Status)
      modifies this
      ensures Fed(State(), status) == S.TakeByte(codec, protocol, old(State()), b)
    {
      hide S.TakeLine, Judge;
      frameBytes := frameBytes + 1;
      if frameBytes > MAX_EVENT_BYTES { return Bad; }
      if b != LF {
        line := line + [b];
        return More;
      }
      if line != [] && line[|line| - 1] == CR { line := line[..|line| - 1]; }
      var taken := line;
      line := [];
      status := TakeLine(taken);
    }

    method TakeLine(taken: Bytes) returns (status: Status)
      requires line == []
      modifies this`event, this`data, this`frameBytes
      ensures Fed(State(), status) == S.TakeLine(codec, protocol, old(State()), taken)
    {
      hide Judge, Tells, Completes, Declines, Lies, SaysNothing;
      if taken == [] {
        status := FinishFrame();
        if status.Bad? { return; }
        frameBytes := 0;
        return;
      }
      if taken[0] != COLON {
        var name, value := FieldName(taken), FieldValue(taken);
        if name == DATA {
          data := data + value;
          data := data + [LF];
        } else if name == EVENT {
          if codec.text(value).None? { return Bad; }
          event := Some(value);
        }
      }
      status := More;
    }

    method FinishFrame() returns (status: Status)
      modifies this`event, this`data
      ensures status == Judge(codec, protocol, old(event), old(data))
      ensures forall kind, response :: Tells(codec, old(event), old(data), kind, response) ==>
        && (status == Done(Settlement.Succeeded) <==> Completes(protocol, kind, response))
        && (status == Done(Settlement.Rejected) <==> Declines(protocol, kind, response))
        && (status.Bad? <==> Lies(protocol, kind, response))
      ensures SaysNothing(codec, old(data)) ==> status.More?
      ensures status.Done? ==> exists kind, response :: Tells(codec, old(event), old(data), kind, response)
      ensures event == None && data == []
    {
      JudgeMeans(codec, protocol, event, data);
      var taken, bytes := event, data;
      event, data := None, [];
      if bytes == [] || bytes == DONE { return More; }
      var value := codec.json(bytes);
      if value.None? || value.value.NotObject? { return Bad; }
      var kind, response := value.value.kind, value.value.response;
      if kind.Missing? { return More; }
      if kind.Other? { return Bad; }
      var name := kind.text;
      if taken.Some? && taken.value != [] && codec.text(taken.value) != Some(name) { return Bad; }
      if protocol == Responses {
        var expected := Expected(name);
        if expected.Some? && !response.NoResponse? {
          if response.OtherResponse? { return Bad; }
          if !response.status.Missing? && response.status != Text(expected.value) { return Bad; }
        }
      }
      var terminal := TerminalKind(protocol, name);
      status := if terminal.Some? then Done(terminal.value) else More;
    }
  }

  // ------------------------------------------------------------------- forwarding

  const MAX_ERROR_BYTES: nat := 64 * 1024

  /** The chunks read before the first failed read. */
  function Chunks(body: seq<Option<Bytes>>): seq<Bytes> {
    if body == [] || body[0].None? then [] else [body[0].value] + Chunks(body[1..])
  }

  lemma {:induction false} ChunksPrefix(body: seq<Option<Bytes>>, i: nat)
    requires i <= |body| && forall k :: 0 <= k < i ==> body[k].Some?
    ensures i <= |Chunks(body)| && forall k :: 0 <= k < i ==> Chunks(body)[k] == body[k].value
    ensures i == |body| || body[i].None? ==> |Chunks(body)| == i
  {
    if i > 0 {
      ChunksPrefix(body[1..], i - 1);
    }
  }

  /** Feeding one more chunk decides what the longer input decides. */
  lemma NextChunk(codec: Codec, protocol: Protocol, chunks: seq<Bytes>, i: nat)
    requires i < |chunks| && S.Feed(codec, protocol, FRESH, Concat(chunks[..i])).status.More?
    ensures var before := S.Feed(codec, protocol, FRESH, Concat(chunks[..i])).parser;
      var after := S.Feed(codec, protocol, before, chunks[i]);
      && after == S.Feed(codec, protocol, FRESH, Concat(chunks[..i + 1]))
      && after.status == Batch(codec, protocol, Concat(chunks[..i + 1]))
  {
    FeedSplits(codec, protocol, FRESH, Concat(chunks[..i]), chunks[i]);
    assert chunks[..i + 1][..i] == chunks[..i];
    ParserRefinesBatch(codec, protocol, Concat(chunks[..i + 1]));
  }

  /** A successful response as the router sees it. The items before the last are the
      upstream chunks in order, and nothing they hold is terminal; the last item is either
      the chunk that completes the first terminal frame, with what it proves, or a failure. */
  predicate Forwarded(codec: Codec, protocol: Protocol, body: seq<Option<Bytes>>, items: seq<System.Item>) {
    var chunks, last := Chunks(body), |items| - 1;
    && 0 <= last <= |chunks|
    && (forall i :: 0 <= i < last ==> items[i] == System.Data(chunks[i]))
    && Batch(codec, protocol, Concat(chunks[..last])).More?
    && Closes(codec, protocol, chunks, last, items[last])
  }

  predicate Closes(codec: Codec, protocol: Protocol, chunks: seq<Bytes>, last: nat, item: System.Item)
    requires last <= |chunks|
  {
    match item
    case Terminal(bytes, outcome) =>
      last < |chunks| && bytes == chunks[last] && Batch(codec, protocol, Concat(chunks[..last + 1])) == Done(outcome)
    case Broken => last < |chunks| ==> Batch(codec, protocol, Concat(chunks[..last + 1])).Bad?
    case _ => false
  }

  lemma NothingFed(codec: Codec, protocol: Protocol, chunks: seq<Bytes>)
    ensures S.Feed(codec, protocol, FRESH, Concat(chunks[..0])) == Fed(FRESH, More)
    ensures Batch(codec, protocol, Concat(chunks[..0])).More?
  {
    assert chunks[..0] == [];
    ParserRefinesBatch(codec, protocol, []);
  }

  lemma Finishes(codec: Codec, protocol: Protocol, body: seq<Option<Bytes>>, items: seq<System.Item>, item: System.Item)
    requires |items| <= |Chunks(body)| && forall k :: 0 <= k < |items| ==> items[k] == System.Data(Chunks(body)[k])
    requires Batch(codec, protocol, Concat(Chunks(body)[..|items|])).More?
    requires Closes(codec, protocol, Chunks(body), |items|, item)
    ensures Forwarded(codec, protocol, body, items + [item])
  {
    hide Batch, Closes, Concat, Chunks;
  }

  /** A successful response is forwarded chunk by chunk. */
  method ForwardStream(codec: Codec, protocol: Protocol, body: seq<Option<Bytes>>) returns (items: seq<System.Item>)
    ensures Forwarded(codec, protocol, body, items)
  {
    hide Forwarded, Batch, S.Feed, Chunks, Concat;
    var parser := new TerminalParser(codec, protocol);
    ghost var chunks := Chunks(body);
    items := [];
    var i := 0;
    NothingFed(codec, protocol, chunks);
    while i < |body|
      invariant 0 <= i <= |body| && |items| == i
      invariant forall k :: 0 <= k < i ==> body[k].Some?
      invariant i <= |chunks| && forall k :: 0 <= k < i ==> items[k] == System.Data(chunks[k])
      invariant parser.codec == codec && parser.protocol == protocol
      invariant Fed(parser.State(), More) == S.Feed(codec, protocol, FRESH, Concat(chunks[..i]))
      invariant Batch(codec, protocol, Concat(chunks[..i])).More?
    {
      ChunksPrefix(body, i);
      if body[i].None? {
        Finishes(codec, protocol, body, items, System.Broken);
        return items + [System.Broken];
      }
      ChunksPrefix(body, i + 1);
      var chunk := body[i].value;
      NextChunk(codec, protocol, chunks, i);
      var outcome := parser.Feed(chunk);
      match outcome {
        case Done(settlement) =>
          Finishes(codec, protocol, body, items, System.Terminal(chunk, settlement));
          return items + [System.Terminal(chunk, settlement)];
        case More => items := items + [System.Data(chunk)];
        case Bad =>
          Finishes(codec, protocol, body, items, System.Broken);
          return items + [System.Broken];
      }
      i := i + 1;
    }
    ChunksPrefix(body, i);
    Finishes(codec, protocol, body, items, System.Broken);
    items := items + [System.Broken];
  }

  function Total(chunks: seq<Bytes>): nat {
    if chunks == [] then 0 else Total(chunks[..|chunks| - 1]) + |chunks[|chunks| - 1]|
  }

  lemma {:induction false} TotalGrows(chunks: seq<Bytes>, i: nat)
    requires i <= |chunks|
    ensures Total(chunks[..i]) <= Total(chunks)
  {
    if i < |chunks| {
      TotalGrows(chunks[..|chunks| - 1], i);
      assert chunks[..|chunks| - 1][..i] == chunks[..i];
    } else {
      assert chunks[..i] == chunks;
    }
  }

  /** A refused request is proven rejected only by a complete, bounded error body with a
      status that cannot mean the request still runs. */
  method ForwardError(status: nat, body: seq<Option<Bytes>>) returns (items: seq<System.Item>)
    requires !(200 <= status < 300)
    ensures items != []
    ensures var last := |items| - 1; var chunks := Chunks(body);
      && last <= |chunks| && (forall i :: 0 <= i < last ==> items[i] == System.Data(chunks[i]))
      && (items[last] == System.Finished(Settlement.Rejected) || items[last].Broken?)
      && (items[last].Finished? <==>
            |chunks| == |body| && Total(chunks) <= MAX_ERROR_BYTES && 400 <= status < 500 && status != 408)
      && (items[last].Finished? ==> last == |body|)
  {
    ghost var chunks := Chunks(body);
    items := [];
    var total := 0;
    var i := 0;
    while i < |body|
      invariant 0 <= i <= |body| && |items| == i
      invariant forall k :: 0 <= k < i ==> body[k].Some?
      invariant i <= |chunks| && forall k :: 0 <= k < i ==> items[k] == System.Data(chunks[k])
      invariant total == Total(chunks[..i]) <= MAX_ERROR_BYTES
    {
      ChunksPrefix(body, i);
      if body[i].None? { return items + [System.Broken]; }
      ChunksPrefix(body, i + 1);
      assert chunks[..i + 1][..i] == chunks[..i];
      total := total + |body[i].value|;
      if total > MAX_ERROR_BYTES {
        TotalGrows(chunks, i + 1);
        return items + [System.Broken];
      }
      items := items + [System.Data(body[i].value)];
      i := i + 1;
    }
    ChunksPrefix(body, i);
    assert chunks[..i] == chunks;
    if 400 <= status < 500 && status != 408 {
      items := items + [System.Finished(Settlement.Rejected)];
    } else {
      items := items + [System.Broken];
    }
  }
}
