/** What the client of a translated response sees, told from the response's own items: every item's
    blocks in order, each call under its own identifier, and nothing else. */
module Spoken {
  import opened Domain
  import opened Json
  import opened Translator
  import opened Responses
  import opened Stream

  // ------------------------------------------------------------ items and their blocks

  /** The item can be spoken at all. */
  predicate Sayable(item: Item, names: set<string>, codec: Codec) {
    match item
    case Reasoning(_, encrypted, summary) => encrypted != "" && forall i :: 0 <= i < |summary| ==> summary[i].Some?
    case Said(_, completed, parts) => completed && forall i :: 0 <= i < |parts| ==> parts[i].Some?
    case Call(_, completed, call, name, arguments) =>
      call != "" && completed && name in names && codec.parse(arguments).Some? && codec.parse(arguments).value.Object?
    case _ => false
  }

  /** Texts with a blank line between any two. */
  predicate Paragraphs(text: string, texts: seq<string>) {
    if texts == [] then text == ""
    else if |texts| == 1 then text == texts[0]
    else texts[0] + "\n\n" <= text && Paragraphs(text[|texts[0]| + 2..], texts[1..])
  }

  /** These blocks say this item. */
  ghost predicate Says(blocks: seq<Block>, item: Item, codec: Codec) {
    match item
    case Reasoning(_, _, summary) =>
      && (forall i :: 0 <= i < |summary| ==> summary[i].Some?)
      && |blocks| == 1 && blocks[0].Thinking?
      && Paragraphs(blocks[0].thinking, seq(|summary|, i requires 0 <= i < |summary| => summary[i].value))
      && blocks[0].signature == "poolparty-responses-v1:" + codec.digest(item)
    case Said(_, _, parts) =>
      |blocks| == |parts| && forall i :: 0 <= i < |parts| ==> blocks[i].TextBlock? && parts[i] == Some(blocks[i].text)
    case Call(_, _, call, name, arguments) =>
      |blocks| == 1 && blocks[0].ToolUse? && blocks[0].id == call && blocks[0].name == name
      && codec.parse(arguments) == Some(blocks[0].arguments)
    case _ => false
  }

  function Joint(pieces: seq<seq<Block>>): seq<Block> {
    if pieces == [] then [] else Joint(pieces[..|pieces| - 1]) + pieces[|pieces| - 1]
  }

  /** The blocks are the items', item by item and in order. */
  ghost predicate SaysAll(pieces: seq<seq<Block>>, output: seq<Item>, codec: Codec) {
    |pieces| == |output| && forall i :: 0 <= i < |output| ==> Says(pieces[i], output[i], codec)
  }

  /** Calls are told apart by their identifiers. */
  ghost predicate DistinctCalls(output: seq<Item>) {
    forall i, j :: 0 <= i < j < |output| && output[i].Call? && output[j].Call? ==> output[i].call != output[j].call
  }

  predicate Announces(output: seq<Item>, call: string) {
    exists i :: 0 <= i < |output| && output[i].Call? && output[i].call == call
  }

  lemma {:induction false} JoinedParagraphs(texts: seq<string>)
    ensures Paragraphs(Joined(texts), texts)
  {
    if |texts| > 1 {
      JoinedParagraphs(texts[1..]);
      assert Joined(texts) == texts[0] + "\n\n" + Joined(texts[1..]);
      assert Joined(texts)[|texts[0]| + 2..] == Joined(texts[1..]);
    }
  }

  /** One item is spoken exactly when it can be and its call is new, and then as itself. */
  lemma SpeakMeans(s: Speech, item: Item, names: set<string>, codec: Codec) returns (piece: seq<Block>)
    ensures Speak(s, item, names, codec).Some? <==> Sayable(item, names, codec) && (item.Call? ==> item.call !in s.calls)
    ensures Speak(s, item, names, codec).Some? ==> (
      var n := Speak(s, item, names, codec).value;
      && Says(piece, item, codec) && n.blocks == s.blocks + piece
      && n.calls == s.calls + if item.Call? then {item.call} else {})
  {
    piece := [];
    var next := Speak(s, item, names, codec);
    if next.Some? {
      match item
      case Reasoning(_, _, summary) =>
        JoinedParagraphs(PartTexts(summary));
        piece := [Thinking(Joined(PartTexts(summary)), SIGNATURE + codec.digest(item))];
        assert PartTexts(summary) == seq(|summary|, i requires 0 <= i < |summary| => summary[i].value);
      case Said(_, _, parts) => piece := TextBlocks(parts);
      case Call(_, _, call, name, arguments) => piece := [ToolUse(call, name, codec.parse(arguments).value)];
      case _ =>
    }
  }

  lemma AnnouncedLast(output: seq<Item>, call: string)
    requires output != []
    ensures var before, last := output[..|output| - 1], output[|output| - 1];
      Announces(output, call) <==> Announces(before, call) || (last.Call? && last.call == call)
  {
    var before, last := output[..|output| - 1], output[|output| - 1];
    assert output == before + [last];
    if Announces(before, call) {
      var i :| 0 <= i < |before| && before[i].Call? && before[i].call == call;
      assert output[i] == before[i];
    }
  }

  lemma DistinctLast(output: seq<Item>)
    requires output != []
    ensures var before, last := output[..|output| - 1], output[|output| - 1];
      DistinctCalls(output) <==> DistinctCalls(before) && (last.Call? ==> !Announces(before, last.call))
  {
    var before, last := output[..|output| - 1], output[|output| - 1];
    assert forall i :: 0 <= i < |before| ==> before[i] == output[i];
  }

  /** Everything is spoken exactly when every item can be and no call repeats another's name. */
  lemma {:induction false} SpokenMeans(output: seq<Item>, names: set<string>, codec: Codec) returns (pieces: seq<seq<Block>>)
    ensures SpeakAll(output, names, codec).Some? <==>
      (forall i :: 0 <= i < |output| ==> Sayable(output[i], names, codec)) && DistinctCalls(output)
    ensures SpeakAll(output, names, codec).Some? ==> (
      var s := SpeakAll(output, names, codec).value;
      && SaysAll(pieces, output, codec) && s.blocks == Joint(pieces)
      && forall call :: call in s.calls <==> Announces(output, call))
  {
    pieces := [];
    if output != [] {
      var before, last := output[..|output| - 1], output[|output| - 1];
      assert output == before + [last];
      pieces := SpokenMeans(before, names, codec);
      DistinctLast(output);
      forall call
        ensures Announces(output, call) <==> Announces(before, call) || (last.Call? && last.call == call)
      {
        AnnouncedLast(output, call);
      }
      hide DistinctCalls, Announces, Says, Sayable, Speak;
      if SpeakAll(before, names, codec).Some? {
        var piece := SpeakMeans(SpeakAll(before, names, codec).value, last, names, codec);
        assert (pieces + [piece])[..|pieces|] == pieces;
        pieces := pieces + [piece];
      }
    }
  }

  // ------------------------------------------------------------------ the whole reply

  predicate Countable(usage: Option<Usage>) {
    usage.Some? && 0 <= usage.value.output && 0 <= usage.value.cached <= usage.value.input
  }

  function Blocks(entries: seq<Entry>): seq<Block> { seq(|entries|, i requires 0 <= i < |entries| => entries[i].block) }

  /** The events open with the response's name and its uncached and cached input, and close with
      why it stopped and its output. */
  predicate Framed(events: seq<Event>, r: Response, model: string, stop: string)
    requires r.usage.Some?
  {
    var n := |events|;
    && n >= 3
    && events[0] == MessageStart(r.id, model, [], r.usage.value.input - r.usage.value.cached, r.usage.value.cached)
    && events[n - 2] == MessageDelta(stop, r.usage.value.output) && events[n - 1] == MessageStop
  }

  /** A tool is used under this identifier. */
  predicate Uses(blocks: seq<Block>, call: string) {
    exists i :: 0 <= i < |blocks| && blocks[i].ToolUse? && blocks[i].id == call
  }

  lemma UsesJoin(a: seq<Block>, b: seq<Block>, call: string)
    ensures Uses(a + b, call) <==> Uses(a, call) || Uses(b, call)
  {
    var all := a + b;
    assert forall i :: 0 <= i < |a| ==> all[i] == a[i];
    assert forall i :: 0 <= i < |b| ==> all[|a| + i] == b[i];
    if Uses(all, call) {
      var i :| 0 <= i < |all| && all[i].ToolUse? && all[i].id == call;
      if i >= |a| { assert b[i - |a|] == all[i]; }
    }
  }

  lemma {:induction false} ToolIds(pieces: seq<seq<Block>>, output: seq<Item>, codec: Codec, call: string)
    requires SaysAll(pieces, output, codec)
    ensures Uses(Joint(pieces), call) <==> Announces(output, call)
    decreases |output|
  {
    if output != [] {
      var before, last := output[..|output| - 1], output[|output| - 1];
      var rest, piece := pieces[..|output| - 1], pieces[|output| - 1];
      ToolIds(rest, before, codec, call);
      AnnouncedLast(output, call);
      assert Says(piece, last, codec);
      PieceIds(piece, last, codec, call);
      UsesJoin(Joint(rest), piece, call);
      hide Announces, Says, Uses;
    }
  }

  lemma PieceIds(piece: seq<Block>, item: Item, codec: Codec, call: string)
    requires Says(piece, item, codec)
    ensures Uses(piece, call) <==> item.Call? && item.call == call
  {
    hide Paragraphs;
    if item.Call? && item.call == call { assert piece[0].ToolUse?; }
  }

  /** A response is translated exactly when it is the bound model's, named, counted, fits, and says
      something every part of which can be said. Its blocks are then its items', in order; the calls
      the bridge waits for are exactly the identifiers the client was given; and the client is told
      to use a tool exactly when there is one to use. */
  lemma ReplyMeans(r: Response, model: string, names: set<string>, codec: Codec, fits: seq<Event> -> bool)
    returns (pieces: seq<seq<Block>>)
    ensures Replied(r, model, names, codec, fits).Some? ==>
      && r.model == model && r.id != "" && Countable(r.usage)
      && (forall i :: 0 <= i < |r.output| ==> Sayable(r.output[i], names, codec)) && DistinctCalls(r.output)
    ensures Replied(r, model, names, codec, fits).Some? ==> (
      var reply := Replied(r, model, names, codec, fits).value;
      && SaysAll(pieces, r.output, codec) && Blocks(reply.assistant) == Joint(pieces) && reply.assistant != []
      && (forall i :: 0 <= i < |reply.assistant| ==> reply.assistant[i].role.Assistant?)
      && (forall call :: call in reply.calls <==> Announces(r.output, call))
      && (forall call :: call in reply.calls <==> Uses(Blocks(reply.assistant), call))
      && Framed(reply.events, r, model, if exists call :: Announces(r.output, call) then "tool_use" else "end_turn")
      && fits(reply.events))
  {
    pieces := SpokenMeans(r.output, names, codec);
    if Replied(r, model, names, codec, fits).Some? {
      var reply := Replied(r, model, names, codec, fits).value;
      var s := SpeakAll(r.output, names, codec).value;
      assert Blocks(Entries(Assistant, s.blocks)) == s.blocks;
      forall call
        ensures Announces(r.output, call) <==> Uses(Blocks(reply.assistant), call)
      {
        ToolIds(pieces, r.output, codec, call);
      }
      hide SpeakAll, Announces, SaysAll, AllBlockEvents, DistinctCalls, Sayable, Uses;
      assert s.calls != {} <==> exists call :: Announces(r.output, call) by {
        if s.calls != {} {
          var call :| call in s.calls;
          assert Announces(r.output, call);
        }
      }
    }
  }

  /** The item has something to say. */
  predicate Audible(item: Item) { item.Call? || item.Reasoning? || (item.Said? && item.parts != []) }

  /** Nothing that can be said is refused, except for its size. */
  lemma SayableIsTranslated(r: Response, model: string, names: set<string>, codec: Codec, fits: seq<Event> -> bool)
    requires r.model == model && r.id != "" && Countable(r.usage)
    requires forall i :: 0 <= i < |r.output| ==> Sayable(r.output[i], names, codec)
    requires DistinctCalls(r.output) && exists i :: 0 <= i < |r.output| && Audible(r.output[i])
    ensures Replied(r, model, names, codec, fits).None? ==> exists events, stop :: Framed(events, r, model, stop) && !fits(events)
  {
    hide Speak, SpeakAll, Emitted, Framed, Sayable, DistinctCalls;
    SaysSomething(r.output, names, codec);
    var s := SpeakAll(r.output, names, codec).value;
    EmittedFramed(r, model, s, r.usage.value, codec);
  }

  lemma EmittedFramed(r: Response, model: string, s: Speech, usage: Usage, codec: Codec)
    requires r.usage == Some(usage)
    ensures Framed(Emitted(r, model, s, usage, codec), r, model, if s.calls != {} then "tool_use" else "end_turn")
  {
    hide AllBlockEvents;
  }

  lemma SaysSomething(output: seq<Item>, names: set<string>, codec: Codec)
    requires forall i :: 0 <= i < |output| ==> Sayable(output[i], names, codec)
    requires DistinctCalls(output) && exists i :: 0 <= i < |output| && Audible(output[i])
    ensures SpeakAll(output, names, codec).Some? && SpeakAll(output, names, codec).value.blocks != []
  {
    var pieces := SpokenMeans(output, names, codec);
    var i :| 0 <= i < |output| && Audible(output[i]);
    hide SpeakAll, Sayable, DistinctCalls, Joint;
    assert Says(pieces[i], output[i], codec);
    NotEmpty(pieces, i);
  }

  lemma {:induction false} NotEmpty(pieces: seq<seq<Block>>, i: nat)
    requires i < |pieces| && pieces[i] != []
    ensures Joint(pieces) != []
  {
    if i < |pieces| - 1 { NotEmpty(pieces[..|pieces| - 1], i); }
  }

  // ------------------------------------------------------------------ as the client sees it

  /** A block in the client's own terms. */
  ghost predicate Shows(j: Json, block: Block) {
    && j.Object?
    && match block
       case TextBlock(text) => GetText(j, "type") == Some("text") && GetText(j, "text") == Some(text)
       case Thinking(thinking, signature) =>
         && GetText(j, "type") == Some("thinking") && GetText(j, "thinking") == Some(thinking)
         && GetText(j, "signature") == Some(signature)
       case ToolUse(id, name, arguments) =>
         && GetText(j, "type") == Some("tool_use") && GetText(j, "id") == Some(id) && GetText(j, "name") == Some(name)
         && Get(j, "input") == Some(arguments)
       case _ => false
  }

  lemma {:induction false} JsonsShow(blocks: seq<Block>)
    requires forall i :: 0 <= i < |blocks| ==> Speakable(blocks[i])
    ensures |Jsons(blocks)| == |blocks| && forall i :: 0 <= i < |blocks| ==> Shows(Jsons(blocks)[i], blocks[i])
  {
    if blocks != [] {
      var before := blocks[..|blocks| - 1];
      forall i | 0 <= i < |before|
        ensures Speakable(before[i])
      {
        assert before[i] == blocks[i];
      }
      JsonsShow(before);
      JsonShows(blocks[|blocks| - 1]);
      hide Shows, JsonOf, Speakable;
    }
  }

  lemma JsonShows(block: Block)
    requires Speakable(block)
    ensures Shows(JsonOf(block), block)
  {
  }

  /** What the client collects from the stream is what the response's items say, in order: each
      text part, each reasoning, and each call under the identifier it must be answered by. */
  lemma ClientSees(r: Response, model: string, names: set<string>, codec: Codec, fits: seq<Event> -> bool)
    returns (pieces: seq<seq<Block>>)
    requires codec.Faithful() && Replied(r, model, names, codec, fits).Some?
    ensures SaysAll(pieces, r.output, codec)
    ensures var seen := Collected(Replied(r, model, names, codec, fits).value.events, Some(model), codec);
      && seen.Some? && |seen.value| == |Joint(pieces)|
      && forall i :: 0 <= i < |Joint(pieces)| ==> Shows(seen.value[i], Joint(pieces)[i])
  {
    pieces := SpokenMeans(r.output, names, codec);
    StreamRoundTrip(r, model, names, codec, fits);
    SpokenIsSpeakable(r.output, names, codec);
    JsonsShow(SpeakAll(r.output, names, codec).value.blocks);
    hide SpeakAll, Collected, Jsons, Shows, SaysAll, Joint, Sayable, DistinctCalls, Announces, Emitted;
  }
}
