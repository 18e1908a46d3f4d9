/** A completed response spoken as native stream events, and the reader that collects the
    blocks of such a stream. */
module Stream {
  import opened Domain
  import opened Json
  import opened Translator
  import opened Responses

  datatype Delta = ThinkingDelta(text: string) | SignatureDelta(text: string) | TextDelta(text: string)
                 | InputDelta(text: string) | OtherDelta

  datatype Event =
    | MessageStart(id: string, model: string, content: seq<Json>, inputTokens: int, cachedTokens: int)
    | BlockStart(index: int, block: Json)
    | BlockDelta(index: int, delta: Delta)
    | BlockStop(index: int)
    | MessageDelta(stopReason: string, outputTokens: int)
    | MessageStop
    | ErrorEvent
    | OtherEvent

  const SIGNATURE := "poolparty-responses-v1:"

  // ------------------------------------------------------------------ what is spoken

  datatype Speech = Speech(blocks: seq<Block>, calls: set<string>)

  predicate AllText(parts: seq<Option<string>>) { forall i :: 0 <= i < |parts| ==> parts[i].Some? }

  function PartTexts(parts: seq<Option<string>>): seq<string>
    requires AllText(parts)
  {
    seq(|parts|, i requires 0 <= i < |parts| => parts[i].value)
  }

  function TextBlocks(parts: seq<Option<string>>): seq<Block>
    requires AllText(parts)
  {
    seq(|parts|, i requires 0 <= i < |parts| => TextBlock(parts[i].value))
  }

  /** One output item after those spoken; None when it is not supported. */
  function Speak(s: Speech, item: Item, names: set<string>, codec: Codec): Option<Speech> {
    match item
    case Reasoning(_, encrypted, summary) =>
      if encrypted == "" || !AllText(summary) then None
      else Some(s.(blocks := s.blocks + [Thinking(Joined(PartTexts(summary)), SIGNATURE + codec.digest(item))]))
    case Said(_, completed, parts) =>
      if !completed || !AllText(parts) then None else Some(s.(blocks := s.blocks + TextBlocks(parts)))
    case Call(_, completed, call, name, arguments) =>
      var parsed := codec.parse(arguments);
      if call == "" || !completed || call in s.calls || name !in names || parsed.None? || !parsed.value.Object? then None
      else Some(Speech(s.blocks + [ToolUse(call, name, parsed.value)], s.calls + {call}))
    case _ => None
  }

  function SpeakAll(output: seq<Item>, names: set<string>, codec: Codec): Option<Speech> {
    if output == [] then Some(Speech([], {}))
    else
      match SpeakAll(output[..|output| - 1], names, codec)
      case None => None
      case Some(s) => Speak(s, output[|output| - 1], names, codec)
  }

  function StartOf(block: Block): Json {
    match block
    case ToolUse(id, name, _) =>
      Object(map["type" := Text("tool_use"), "id" := Text(id), "name" := Text(name), "input" := Object(map[])])
    case Thinking(_, _) => Object(map["type" := Text("thinking"), "thinking" := Text(""), "signature" := Text("")])
    case _ => Object(map["type" := Text("text"), "text" := Text("")])
  }

  function DeltasOf(block: Block, codec: Codec): seq<Delta> {
    match block
    case ToolUse(_, _, arguments) => [InputDelta(codec.render(arguments))]
    case Thinking(thinking, signature) => [ThinkingDelta(thinking), SignatureDelta(signature)]
    case TextBlock(text) => [TextDelta(text)]
    case _ => []
  }

  function BlockEvents(index: nat, block: Block, codec: Codec): seq<Event> {
    var deltas := DeltasOf(block, codec);
    [BlockStart(index, StartOf(block))]
    + seq(|deltas|, i requires 0 <= i < |deltas| => BlockDelta(index, deltas[i]))
    + [BlockStop(index)]
  }

  function AllBlockEvents(blocks: seq<Block>, codec: Codec): seq<Event> {
    if blocks == [] then []
    else
      var last := |blocks| - 1;
      AllBlockEvents(blocks[..last], codec) + BlockEvents(last, blocks[last], codec)
  }

  predicate UsageFits(usage: Option<Usage>) {
    usage.Some? && usage.value.output >= 0 && 0 <= usage.value.cached <= usage.value.input
  }

  function Emitted(r: Response, model: string, s: Speech, usage: Usage, codec: Codec): seq<Event> {
    [MessageStart(r.id, model, [], usage.input - usage.cached, usage.cached)]
    + AllBlockEvents(s.blocks, codec)
    + [MessageDelta(if s.calls != {} then "tool_use" else "end_turn", usage.output), MessageStop]
  }

  datatype Reply = Reply(events: seq<Event>, assistant: seq<Entry>, calls: set<string>)

  function Replied(r: Response, model: string, names: set<string>, codec: Codec, fits: seq<Event> -> bool): Option<Reply> {
    var spoken := SpeakAll(r.output, names, codec);
    if r.model != model || r.id == "" || spoken.None? || spoken.value.blocks == [] || !UsageFits(r.usage) then None
    else
      var events := Emitted(r, model, spoken.value, r.usage.value, codec);
      if !fits(events) then None
      else Some(Reply(events, Entries(Assistant, spoken.value.blocks), spoken.value.calls))
  }

  lemma {:induction false} UnspokenStays(output: seq<Item>, names: set<string>, codec: Codec, i: nat)
    requires i <= |output| && SpeakAll(output[..i], names, codec).None?
    ensures SpeakAll(output, names, codec).None?
    decreases |output| - i
  {
    if i < |output| {
      assert output[..i + 1][..i] == output[..i];
      UnspokenStays(output, names, codec, i + 1);
    } else {
      assert output[..i] == output;
    }
  }

  method MessageEvents(r: Response, model: string, names: set<string>, codec: Codec, fits: seq<Event> -> bool)
    returns (reply: Option<Reply>)
    ensures reply == Replied(r, model, names, codec, fits)
  {
    hide Speak, Emitted, Entries;
    if r.model != model || r.id == "" { return None; }
    var blocks: seq<Block>, calls: set<string> := [], {};
    for i := 0 to |r.output|
      invariant SpeakAll(r.output[..i], names, codec) == Some(Speech(blocks, calls))
    {
      assert r.output[..i + 1][..i] == r.output[..i];
      var item := r.output[i];
      var spoken := SpeakItem(blocks, calls, item, names, codec);
      if spoken.None? {
        UnspokenStays(r.output, names, codec, i + 1);
        return None;
      }
      blocks, calls := spoken.value.blocks, spoken.value.calls;
    }
    assert r.output[..|r.output|] == r.output;
    hide SpeakAll;
    if blocks == [] || !UsageFits(r.usage) { return None; }
    var events := Emit(r, model, Speech(blocks, calls), r.usage.value, codec);
    if !fits(events) { return None; }
    reply := Some(Reply(events, Entries(Assistant, blocks), calls));
  }

  lemma NoBlocks(start: seq<Event>, blocks: seq<Block>, codec: Codec)
    ensures start + AllBlockEvents(blocks[..0], codec) == start
  {
  }

  lemma OneMoreBlock(start: seq<Event>, blocks: seq<Block>, i: nat, codec: Codec)
    requires i < |blocks|
    ensures start + AllBlockEvents(blocks[..i + 1], codec)
      == start + AllBlockEvents(blocks[..i], codec) + BlockEvents(i, blocks[i], codec)
  {
    assert blocks[..i + 1][..i] == blocks[..i];
    hide BlockEvents;
  }

  method Emit(r: Response, model: string, s: Speech, usage: Usage, codec: Codec) returns (events: seq<Event>)
    ensures events == Emitted(r, model, s, usage, codec)
  {
    var blocks := s.blocks;
    events := [MessageStart(r.id, model, [], usage.input - usage.cached, usage.cached)];
    ghost var start := events;
    NoBlocks(start, blocks, codec);
    for i := 0 to |blocks|
      invariant events == start + AllBlockEvents(blocks[..i], codec)
    {
      OneMoreBlock(start, blocks, i, codec);
      hide StartOf, DeltasOf, AllBlockEvents;
      var deltas := DeltasOf(blocks[i], codec);
      ghost var before := events;
      events := events + [BlockStart(i, StartOf(blocks[i]))];
      events := events + seq(|deltas|, k requires 0 <= k < |deltas| => BlockDelta(i, deltas[k]));
      events := events + [BlockStop(i)];
      assert events == before + BlockEvents(i, blocks[i], codec);
    }
    assert blocks[..|blocks|] == blocks;
    events := events + [MessageDelta(if s.calls != {} then "tool_use" else "end_turn", usage.output), MessageStop];
  }

  /** The body of the loop over output items. */
  method SpeakItem(blocks: seq<Block>, calls: set<string>, item: Item, names: set<string>, codec: Codec)
    returns (r: Option<Speech>)
    ensures r == Speak(Speech(blocks, calls), item, names, codec)
  {
    match item {
      case Reasoning(_, encrypted, parts) =>
        if encrypted == "" { return None; }
        var summary: seq<string> := [];
        for i := 0 to |parts|
          invariant AllText(parts[..i]) && summary == PartTexts(parts[..i])
        {
          if parts[i].None? { return None; }
          summary := summary + [parts[i].value];
        }
        assert parts[..|parts|] == parts;
        r := Some(Speech(blocks + [Thinking(Joined(summary), SIGNATURE + codec.digest(item))], calls));
      case Said(_, completed, parts) =>
        if !completed { return None; }
        var spoken := blocks;
        for i := 0 to |parts|
          invariant AllText(parts[..i]) && spoken == blocks + TextBlocks(parts[..i])
        {
          if parts[i].None? { return None; }
          spoken := spoken + [TextBlock(parts[i].value)];
        }
        assert parts[..|parts|] == parts;
        r := Some(Speech(spoken, calls));
      case Call(_, completed, call, name, arguments) =>
        if call == "" || !completed || call in calls || name !in names { return None; }
        var parsed := codec.parse(arguments);
        if parsed.None? || !parsed.value.Object? { return None; }
        r := Some(Speech(blocks + [ToolUse(call, name, parsed.value)], calls + {call}));
      case _ => r := None;
    }
  }

  // ---------------------------------------------------------------------- the reader

  datatype Reader = Reader(
    order: seq<int>,              // indices as their blocks were started
    blocks: map<int, Json>,
    tools: map<int, string>,      // argument text so far
    stopped: set<int>,
    started: bool,
    terminal: bool)

  const UNREAD := Reader([], map[], map[], {}, false, false)

  function Append(block: Json, field: string, text: string): Option<Json>
    requires block.Object?
  {
    if field !in block.members then Some(Set(block, field, Text(text)))
    else if !block.members[field].Text? then None
    else Some(Set(block, field, Text(block.members[field].text + text)))
  }

  function FieldOf(delta: Delta): string {
    match delta
    case ThinkingDelta(_) => "thinking"
    case SignatureDelta(_) => "signature"
    case _ => "text"
  }

  function ReadStart(r: Reader, index: int, block: Json): Option<Reader> {
    if !r.started || index in r.blocks || !block.Object? then None
    else
      var begun := r.(order := r.order + [index], blocks := r.blocks[index := block]);
      if Get(block, "type") != Some(Text("tool_use")) then Some(begun)
      else if Get(block, "input") != Some(Object(map[])) then None
      else Some(begun.(tools := r.tools[index := ""]))
  }

  function ReadDelta(r: Reader, index: int, delta: Delta): Option<Reader> {
    if !r.started || index !in r.blocks || index in r.stopped then None
    else match delta
      case InputDelta(text) =>
        Some(r.(tools := r.tools[index := (if index in r.tools then r.tools[index] else "") + text]))
      case OtherDelta => Some(r)
      case _ =>
        if !r.blocks[index].Object? then None
        else
          var grown := Append(r.blocks[index], FieldOf(delta), delta.text);
          if grown.None? then None else Some(r.(blocks := r.blocks[index := grown.value]))
  }

  function Read(r: Reader, ev: Event, expected: Option<string>): Option<Reader> {
    if r.terminal then None
    else match ev
      case MessageStart(_, model, content, _, _) =>
        if r.started || content != [] || (expected.Some? && model != expected.value) then None
        else Some(r.(started := true))
      case BlockStart(index, block) => ReadStart(r, index, block)
      case BlockDelta(index, delta) => ReadDelta(r, index, delta)
      case BlockStop(index) =>
        if !r.started || index !in r.blocks || index in r.stopped then None
        else Some(r.(stopped := r.stopped + {index}))
      case MessageStop =>
        if !r.started || r.blocks.Keys != r.stopped then None else Some(r.(terminal := true))
      case ErrorEvent => None
      case _ => Some(r)
  }

  function ReadAll(r: Reader, events: seq<Event>, expected: Option<string>): Option<Reader> {
    if events == [] then Some(r)
    else
      match ReadAll(r, events[..|events| - 1], expected)
      case None => None
      case Some(next) => Read(next, events[|events| - 1], expected)
  }

  /** A tool's collected arguments, parsed, replace the empty input it started with. */
  function Resolved(block: Json, arguments: Option<string>, codec: Codec): Option<Json> {
    if arguments.None? || arguments.value == "" then Some(block)
    else if !block.Object? || codec.parse(arguments.value).None? then None
    else Some(Set(block, "input", codec.parse(arguments.value).value))
  }

  function Lookup(m: map<int, string>, k: int): Option<string> { if k in m then Some(m[k]) else None }

  function ResolvedAll(r: Reader, order: seq<int>, codec: Codec): Option<seq<Json>> {
    if order == [] then Some([])
    else
      var last := order[|order| - 1];
      var rest := ResolvedAll(r, order[..|order| - 1], codec);
      if rest.None? || last !in r.blocks then None
      else
        var block := Resolved(r.blocks[last], Lookup(r.tools, last), codec);
        if block.None? then None else Some(rest.value + [block.value])
  }

  /** The blocks of a whole stream, in the order they were started. */
  function Collected(events: seq<Event>, expected: Option<string>, codec: Codec): Option<seq<Json>> {
    var r := ReadAll(UNREAD, events, expected);
    if r.None? || !r.value.terminal then None else ResolvedAll(r.value, r.value.order, codec)
  }

  lemma {:induction false} UnreadStays(r: Reader, events: seq<Event>, expected: Option<string>, i: nat)
    requires i <= |events| && ReadAll(r, events[..i], expected).None?
    ensures ReadAll(r, events, expected).None?
    decreases |events| - i
  {
    if i < |events| {
      assert events[..i + 1][..i] == events[..i];
      UnreadStays(r, events, expected, i + 1);
    } else {
      assert events[..i] == events;
    }
  }

  lemma {:induction false} ReadSplits(r: Reader, a: seq<Event>, b: seq<Event>, expected: Option<string>)
    ensures ReadAll(r, a + b, expected) ==
      if ReadAll(r, a, expected).None? then None else ReadAll(ReadAll(r, a, expected).value, b, expected)
  {
    if b == [] {
      assert a + b == a;
    } else {
      ReadSplits(r, a, b[..|b| - 1], expected);
      assert (a + b)[..|a + b| - 1] == a + b[..|b| - 1];
      hide Read;
    }
  }

  // --------------------------------------------------------------------- round trip

  /** A block as the native client sees it. */
  function JsonOf(block: Block): Json {
    match block
    case ToolUse(id, name, arguments) =>
      Object(map["type" := Text("tool_use"), "id" := Text(id), "name" := Text(name), "input" := arguments])
    case Thinking(thinking, signature) =>
      Object(map["type" := Text("thinking"), "thinking" := Text(thinking), "signature" := Text(signature)])
    case TextBlock(text) => Object(map["type" := Text("text"), "text" := Text(text)])
    case _ => Null
  }

  function Jsons(blocks: seq<Block>): seq<Json> {
    if blocks == [] then [] else Jsons(blocks[..|blocks| - 1]) + [JsonOf(blocks[|blocks| - 1])]
  }

  /** The same before a tool's arguments are put in. */
  function Streamed(block: Block): Json {
    match block
    case ToolUse(_, _, _) => StartOf(block)
    case _ => JsonOf(block)
  }

  function Arguments(block: Block, codec: Codec): Option<string> {
    if block.ToolUse? then Some(codec.render(block.arguments)) else None
  }

  predicate Speakable(block: Block) {
    block.TextBlock? || block.Thinking? || (block.ToolUse? && block.arguments.Object?)
  }

  /** A tool's arguments survive being rendered and parsed. */
  ghost predicate Survives(block: Block, codec: Codec) {
    block.ToolUse? ==> codec.parse(codec.render(block.arguments)) == Some(block.arguments)
  }

  /** The reader after one whole block. */
  function AfterBlock(r: Reader, index: int, block: Block, codec: Codec): Reader {
    r.(order := r.order + [index], blocks := r.blocks[index := Streamed(block)], stopped := r.stopped + {index},
       tools := if block.ToolUse? then r.tools[index := codec.render(block.arguments)] else r.tools)
  }

  lemma OneEvent(r: Reader, ev: Event, expected: Option<string>)
    ensures ReadAll(r, [ev], expected) == Read(r, ev, expected)
  {
    assert [ev][..0] == [];
  }

  lemma TwoEvents(r: Reader, a: Event, b: Event, expected: Option<string>)
    ensures ReadAll(r, [a, b], expected) ==
      if Read(r, a, expected).None? then None else Read(Read(r, a, expected).value, b, expected)
  {
    ReadSplits(r, [a], [b], expected);
    OneEvent(r, a, expected);
    if Read(r, a, expected).Some? { OneEvent(Read(r, a, expected).value, b, expected); }
    assert [a] + [b] == [a, b];
    hide Read, ReadAll;
  }

  lemma StartReads(r: Reader, index: nat, block: Block, expected: Option<string>)
    requires r.started && !r.terminal && index !in r.blocks && Speakable(block)
    ensures Read(r, BlockStart(index, StartOf(block)), expected) ==
      Some(r.(order := r.order + [index], blocks := r.blocks[index := StartOf(block)],
              tools := if block.ToolUse? then r.tools[index := ""] else r.tools))
  {
  }

  lemma Grown(r: Reader, index: nat, field: string, delta: Delta, expected: Option<string>)
    requires r.started && !r.terminal && index in r.blocks && index !in r.stopped
    requires !delta.InputDelta? && !delta.OtherDelta? && FieldOf(delta) == field
    requires r.blocks[index].Object? && field in r.blocks[index].members && r.blocks[index].members[field] == Text("")
    ensures Read(r, BlockDelta(index, delta), expected)
      == Some(r.(blocks := r.blocks[index := Set(r.blocks[index], field, Text(delta.text))]))
  {
    assert "" + delta.text == delta.text;
  }

  lemma TextReads(r: Reader, index: nat, block: Block, codec: Codec, expected: Option<string>)
    requires r.started && !r.terminal && index !in r.blocks && index !in r.stopped && block.TextBlock?
    ensures ReadAll(r, BlockEvents(index, block, codec), expected) == Some(AfterBlock(r, index, block, codec))
  {
    var start, delta := BlockStart(index, StartOf(block)), TextDelta(block.text);
    assert BlockEvents(index, block, codec) == [start, BlockDelta(index, delta)] + [BlockStop(index)];
    StartReads(r, index, block, expected);
    var begun := Read(r, start, expected).value;
    Grown(begun, index, "text", delta, expected);
    var grown := Read(begun, BlockDelta(index, delta), expected).value;
    assert grown.blocks[index].members == JsonOf(block).members;
    assert grown == begun.(blocks := r.blocks[index := Streamed(block)]);
    TwoEvents(r, start, BlockDelta(index, delta), expected);
    ReadSplits(r, [start, BlockDelta(index, delta)], [BlockStop(index)], expected);
    OneEvent(grown, BlockStop(index), expected);
    hide ReadAll, BlockEvents;
  }

  lemma ThinkingReads(r: Reader, index: nat, block: Block, codec: Codec, expected: Option<string>)
    requires r.started && !r.terminal && index !in r.blocks && index !in r.stopped && block.Thinking?
    ensures ReadAll(r, BlockEvents(index, block, codec), expected) == Some(AfterBlock(r, index, block, codec))
  {
    var start, one, two :=
      BlockStart(index, StartOf(block)), ThinkingDelta(block.thinking), SignatureDelta(block.signature);
    assert BlockEvents(index, block, codec) == [start, BlockDelta(index, one)] + [BlockDelta(index, two), BlockStop(index)];
    StartReads(r, index, block, expected);
    var begun := Read(r, start, expected).value;
    Grown(begun, index, "thinking", one, expected);
    var first := Read(begun, BlockDelta(index, one), expected).value;
    Grown(first, index, "signature", two, expected);
    var second := Read(first, BlockDelta(index, two), expected).value;
    assert second.blocks[index].members == JsonOf(block).members;
    assert second == begun.(blocks := r.blocks[index := Streamed(block)]);
    TwoEvents(r, start, BlockDelta(index, one), expected);
    TwoEvents(first, BlockDelta(index, two), BlockStop(index), expected);
    ReadSplits(r, [start, BlockDelta(index, one)], [BlockDelta(index, two), BlockStop(index)], expected);
    hide ReadAll, BlockEvents;
  }

  lemma ToolReads(r: Reader, index: nat, block: Block, codec: Codec, expected: Option<string>)
    requires r.started && !r.terminal && index !in r.blocks && index !in r.stopped && block.ToolUse?
    requires block.arguments.Object?
    ensures ReadAll(r, BlockEvents(index, block, codec), expected) == Some(AfterBlock(r, index, block, codec))
  {
    var text := codec.render(block.arguments);
    var start, delta := BlockStart(index, StartOf(block)), InputDelta(text);
    assert BlockEvents(index, block, codec) == [start, BlockDelta(index, delta)] + [BlockStop(index)];
    StartReads(r, index, block, expected);
    var begun := Read(r, start, expected).value;
    assert "" + text == text;
    var grown := Read(begun, BlockDelta(index, delta), expected).value;
    assert grown == begun.(tools := r.tools[index := text]);
    TwoEvents(r, start, BlockDelta(index, delta), expected);
    ReadSplits(r, [start, BlockDelta(index, delta)], [BlockStop(index)], expected);
    OneEvent(grown, BlockStop(index), expected);
    hide ReadAll, BlockEvents;
  }

  lemma BlockReads(r: Reader, index: nat, block: Block, codec: Codec, expected: Option<string>)
    requires r.started && !r.terminal && index !in r.blocks && index !in r.stopped && Speakable(block)
    ensures ReadAll(r, BlockEvents(index, block, codec), expected) == Some(AfterBlock(r, index, block, codec))
  {
    if block.TextBlock? {
      TextReads(r, index, block, codec, expected);
    } else if block.Thinking? {
      ThinkingReads(r, index, block, codec, expected);
    } else {
      ToolReads(r, index, block, codec, expected);
    }
  }

  /** The reader after whole blocks. */
  function AfterBlocks(r: Reader, blocks: seq<Block>, codec: Codec): Reader {
    if blocks == [] then r
    else
      var last := |blocks| - 1;
      AfterBlock(AfterBlocks(r, blocks[..last], codec), last, blocks[last], codec)
  }

  const STARTED := UNREAD.(started := true)

  /** Each block stands under its position, in order, stopped. */
  ghost predicate Stands(r: Reader, blocks: seq<Block>, codec: Codec) {
    && r.started && !r.terminal
    && r.order == seq(|blocks|, i => i)
    && (forall i :: i in r.blocks <==> 0 <= i < |blocks|)
    && (forall i :: i in r.stopped <==> 0 <= i < |blocks|)
    && (forall i :: i in r.tools ==> 0 <= i < |blocks|)
    && (forall i :: 0 <= i < |blocks| ==>
          r.blocks[i] == Streamed(blocks[i]) && Lookup(r.tools, i) == Arguments(blocks[i], codec))
  }

  lemma {:induction false} BlocksRead(blocks: seq<Block>, codec: Codec, expected: Option<string>)
    requires forall i :: 0 <= i < |blocks| ==> Speakable(blocks[i])
    ensures ReadAll(STARTED, AllBlockEvents(blocks, codec), expected) == Some(AfterBlocks(STARTED, blocks, codec))
    ensures Stands(AfterBlocks(STARTED, blocks, codec), blocks, codec)
  {
    if blocks != [] {
      var last := |blocks| - 1;
      var rest := blocks[..last];
      BlocksRead(rest, codec, expected);
      var r := AfterBlocks(STARTED, rest, codec);
      BlockReads(r, last, blocks[last], codec, expected);
      ReadSplits(STARTED, AllBlockEvents(rest, codec), BlockEvents(last, blocks[last], codec), expected);
      OneMore(r, rest, blocks[last], codec);
      assert rest + [blocks[last]] == blocks;
      hide ReadAll, BlockEvents, AfterBlock, Stands;
    }
  }

  lemma OneMore(r: Reader, blocks: seq<Block>, block: Block, codec: Codec)
    requires Stands(r, blocks, codec)
    ensures Stands(AfterBlock(r, |blocks|, block, codec), blocks + [block], codec)
  {
    hide Streamed;
  }

  lemma {:induction false} AllResolve(r: Reader, blocks: seq<Block>, codec: Codec, n: nat)
    requires codec.parse("").None? && Stands(r, blocks, codec) && n <= |blocks|
    requires forall i :: 0 <= i < |blocks| ==> Speakable(blocks[i]) && Survives(blocks[i], codec)
    ensures ResolvedAll(r, r.order[..n], codec) == Some(Jsons(blocks[..n]))
  {
    if n > 0 {
      AllResolve(r, blocks, codec, n - 1);
      assert r.order[..n][..n - 1] == r.order[..n - 1];
      OneResolves(blocks[n - 1], codec);
      hide Resolved, Streamed, JsonOf;
      assert r.order[..n][n - 1] == n - 1 && blocks[..n][..n - 1] == blocks[..n - 1];
    } else {
      assert r.order[..n] == [];
    }
  }

  lemma OneResolves(block: Block, codec: Codec)
    requires codec.parse("").None? && Speakable(block) && Survives(block, codec)
    ensures Resolved(Streamed(block), Arguments(block, codec), codec) == Some(JsonOf(block))
  {
    if block.ToolUse? {
      assert codec.parse(codec.render(block.arguments)) == Some(block.arguments);
      assert Set(Streamed(block), "input", block.arguments).members == JsonOf(block).members;
    }
  }

  lemma {:induction false} SpokenIsSpeakable(output: seq<Item>, names: set<string>, codec: Codec)
    requires SpeakAll(output, names, codec).Some?
    ensures forall i :: 0 <= i < |SpeakAll(output, names, codec).value.blocks| ==>
      Speakable(SpeakAll(output, names, codec).value.blocks[i])
  {
    if output != [] { SpokenIsSpeakable(output[..|output| - 1], names, codec); }
  }

  lemma {:induction false} SpokenSurvives(output: seq<Item>, names: set<string>, codec: Codec)
    requires codec.Faithful() && SpeakAll(output, names, codec).Some?
    ensures forall i :: 0 <= i < |SpeakAll(output, names, codec).value.blocks| ==>
      Survives(SpeakAll(output, names, codec).value.blocks[i], codec)
  {
    if output != [] {
      var last := output[|output| - 1];
      SpokenSurvives(output[..|output| - 1], names, codec);
      if last.Call? { assert codec.parse(last.arguments).Some?; }
    }
  }

  lemma ClosingReads(read: Reader, delta: Event, expected: Option<string>)
    requires read.started && !read.terminal && read.blocks.Keys == read.stopped && delta.MessageDelta?
    ensures ReadAll(read, [delta, MessageStop], expected) == Some(read.(terminal := true))
  {
    TwoEvents(read, delta, MessageStop, expected);
  }

  lemma AllStopped(r: Reader, blocks: seq<Block>, codec: Codec)
    requires Stands(r, blocks, codec)
    ensures r.blocks.Keys == r.stopped
  {
    forall i
      ensures i in r.blocks.Keys <==> i in r.stopped
    {
      assert i in r.blocks <==> 0 <= i < |blocks|;
    }
  }

  lemma BodyReads(blocks: seq<Block>, codec: Codec, expected: Option<string>)
    requires forall i :: 0 <= i < |blocks| ==> Speakable(blocks[i])
    ensures var read := AfterBlocks(STARTED, blocks, codec);
      && ReadAll(STARTED, AllBlockEvents(blocks, codec), expected) == Some(read)
      && read.started && !read.terminal && read.blocks.Keys == read.stopped
  {
    BlocksRead(blocks, codec, expected);
    AllStopped(AfterBlocks(STARTED, blocks, codec), blocks, codec);
  }

  lemma StartsReading(start: Event, body: seq<Event>, model: string)
    requires start.MessageStart? && start.model == model && start.content == []
    ensures ReadAll(UNREAD, [start] + body, Some(model)) == ReadAll(STARTED, body, Some(model))
  {
    OneEvent(UNREAD, start, Some(model));
    ReadSplits(UNREAD, [start], body, Some(model));
    hide ReadAll;
  }

  lemma EmittedReads(r: Response, model: string, s: Speech, usage: Usage, codec: Codec)
    requires forall i :: 0 <= i < |s.blocks| ==> Speakable(s.blocks[i])
    ensures ReadAll(UNREAD, Emitted(r, model, s, usage, codec), Some(model))
      == Some(AfterBlocks(STARTED, s.blocks, codec).(terminal := true))
  {
    hide ReadAll, AllBlockEvents, AfterBlocks, Read;
    var expected, body := Some(model), AllBlockEvents(s.blocks, codec);
    var start := MessageStart(r.id, model, [], usage.input - usage.cached, usage.cached);
    var delta := MessageDelta(if s.calls != {} then "tool_use" else "end_turn", usage.output);
    BodyReads(s.blocks, codec, expected);
    ClosingReads(AfterBlocks(STARTED, s.blocks, codec), delta, expected);
    StartsReading(start, body, model);
    ReadSplits(UNREAD, [start] + body, [delta, MessageStop], expected);
  }

  /** The stream reader takes back, in order, exactly the blocks that were spoken. */
  lemma StreamRoundTrip(r: Response, model: string, names: set<string>, codec: Codec, fits: seq<Event> -> bool)
    requires codec.Faithful() && Replied(r, model, names, codec, fits).Some?
    ensures Collected(Replied(r, model, names, codec, fits).value.events, Some(model), codec)
      == Some(Jsons(SpeakAll(r.output, names, codec).value.blocks))
  {
    var s := SpeakAll(r.output, names, codec).value;
    SpokenIsSpeakable(r.output, names, codec);
    SpokenSurvives(r.output, names, codec);
    EmittedReads(r, model, s, r.usage.value, codec);
    BlocksRead(s.blocks, codec, Some(model));
    var read := AfterBlocks(STARTED, s.blocks, codec);
    AllResolve(read, s.blocks, codec, |s.blocks|);
    assert read.order[..|s.blocks|] == read.order && s.blocks[..|s.blocks|] == s.blocks;
    StoppedResolves(read, codec);
    hide ReadAll, SpeakAll, AllBlockEvents, AfterBlocks, ResolvedAll, Stands, Emitted;
  }

  lemma {:induction false} StoppedResolvesTo(r: Reader, order: seq<int>, codec: Codec)
    ensures ResolvedAll(r.(terminal := true), order, codec) == ResolvedAll(r, order, codec)
  {
    if order != [] { StoppedResolvesTo(r, order[..|order| - 1], codec); }
  }

  lemma StoppedResolves(r: Reader, codec: Codec)
    ensures ResolvedAll(r.(terminal := true), r.order, codec) == ResolvedAll(r, r.order, codec)
  {
    StoppedResolvesTo(r, r.order, codec);
  }

  lemma ReadMore(events: seq<Event>, i: nat, r: Reader, expected: Option<string>)
    requires i < |events| && ReadAll(UNREAD, events[..i], expected) == Some(r)
    ensures ReadAll(UNREAD, events[..i + 1], expected) == Read(r, events[i], expected)
    ensures Read(r, events[i], expected).None? ==> ReadAll(UNREAD, events, expected).None?
  {
    assert events[..i + 1][..i] == events[..i];
    if Read(r, events[i], expected).None? { UnreadStays(UNREAD, events, expected, i + 1); }
    hide Read;
  }

  /** The reader's loop. */
  method StreamBlocks(events: seq<Event>, expected: Option<string>, codec: Codec) returns (result: Option<seq<Json>>)
    ensures result == Collected(events, expected, codec)
  {
    hide ReadAll, ResolvedAll;
    var order: seq<int>, blocks: map<int, Json>, tools: map<int, string>, stopped: set<int> := [], map[], map[], {};
    var started, terminal := false, false;
    NothingRead(events, expected);
    for i := 0 to |events|
      invariant ReadAll(UNREAD, events[..i], expected) == Some(Reader(order, blocks, tools, stopped, started, terminal))
    {
      ReadMore(events, i, Reader(order, blocks, tools, stopped, started, terminal), expected);
      if terminal { return None; }
      match events[i] {
        case MessageStart(_, model, content, _, _) =>
          if started || content != [] || (expected.Some? && model != expected.value) { return None; }
          started := true;
        case BlockStart(index, block) =>
          if !started || index in blocks || !block.Object? { return None; }
          blocks := blocks[index := block];
          order := order + [index];
          if Get(block, "type") == Some(Text("tool_use")) {
            if Get(block, "input") != Some(Object(map[])) { return None; }
            tools := tools[index := ""];
          }
        case BlockDelta(index, delta) =>
          if !started || index !in blocks || index in stopped { return None; }
          match delta {
            case InputDelta(text) =>
              tools := tools[index := (if index in tools then tools[index] else "") + text];
            case OtherDelta =>
            case _ =>
              if !blocks[index].Object? { return None; }
              var grown := Append(blocks[index], FieldOf(delta), delta.text);
              if grown.None? { return None; }
              blocks := blocks[index := grown.value];
          }
        case BlockStop(index) =>
          if !started || index !in blocks || index in stopped { return None; }
          stopped := stopped + {index};
        case MessageStop =>
          if !started || blocks.Keys != stopped { return None; }
          terminal := true;
        case ErrorEvent => return None;
        case _ =>
      }
    }
    assert events[..|events|] == events;
    if !terminal { return None; }
    result := ResolveTools(order, blocks, tools, Reader(order, blocks, tools, stopped, started, terminal), codec);
  }

  lemma NothingRead(events: seq<Event>, expected: Option<string>)
    ensures ReadAll(UNREAD, events[..0], expected) == Some(UNREAD)
  {
  }

  /** The collected arguments are parsed once the stream is complete. */
  method ResolveTools(order: seq<int>, blocks: map<int, Json>, tools: map<int, string>, ghost r: Reader, codec: Codec)
    returns (result: Option<seq<Json>>)
    requires r.order == order && r.blocks == blocks && r.tools == tools
    ensures result == ResolvedAll(r, order, codec)
  {
    var list: seq<Json> := [];
    for i := 0 to |order|
      invariant ResolvedAll(r, order[..i], codec) == Some(list)
    {
      assert order[..i + 1][..i] == order[..i];
      var index := order[i];
      if index !in blocks {
        UnresolvedStays(r, order, codec, i + 1);
        return None;
      }
      var block := blocks[index];
      if index in tools && tools[index] != "" {
        var parsed := codec.parse(tools[index]);
        if !block.Object? || parsed.None? {
          UnresolvedStays(r, order, codec, i + 1);
          return None;
        }
        block := Set(block, "input", parsed.value);
      }
      list := list + [block];
    }
    assert order[..|order|] == order;
    result := Some(list);
  }

  lemma {:induction false} UnresolvedStays(r: Reader, order: seq<int>, codec: Codec, i: nat)
    requires i <= |order| && ResolvedAll(r, order[..i], codec).None?
    ensures ResolvedAll(r, order, codec).None?
    decreases |order| - i
  {
    if i < |order| {
      assert order[..i + 1][..i] == order[..i];
      UnresolvedStays(r, order, codec, i + 1);
    } else {
      assert order[..i] == order;
    }
  }
}
