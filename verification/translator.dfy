/** Native Messages turns translated to Responses requests, and completed responses back. */
module Translator {
  import opened Domain
  import opened Json

  datatype Role = User | Assistant | System

  datatype Block =
    | TextBlock(text: string)
    | ToolUse(id: string, name: string, arguments: Json)
    | ToolResult(call: string, content: seq<string>, isError: bool)
    | Thinking(thinking: string, signature: string)
    | OtherBlock

  datatype Message = Message(role: Option<Role>, blocks: seq<Block>)

  datatype Entry = Entry(role: Role, block: Block)

  datatype Item =
    | Input(role: Role, text: string)
    | Output(call: string, content: seq<string>, isError: bool)
    | Reasoning(id: string, encrypted: string, summary: seq<Option<string>>)          // None: an unsupported part
    | Said(id: string, completed: bool, parts: seq<Option<string>>)
    | Call(id: string, completed: bool, call: string, name: string, arguments: string)
    | Foreign(id: string)

  /** JSON text and digests are the environment's: `parse` accepts what can be read and written again. */
  datatype Codec = Codec(parse: string -> Option<Json>, render: Json -> string, digest: Item -> string)
  {
    /** What was parsed can be rendered and parsed again; nothing parses from no text. */
    ghost predicate Faithful() {
      parse("") == None && forall text: string :: parse(text).Some? ==> parse(render(parse(text).value)) == parse(text)
    }
  }

  // ------------------------------------------------------------------------- history

  predicate Admissible(role: Role, block: Block) {
    match block
    case TextBlock(_) => true
    case ToolUse(id, name, arguments) => role.Assistant? && id != "" && name != "" && arguments.Object?
    case ToolResult(call, _, _) => role.User? && call != ""
    case Thinking(_, signature) => role.Assistant? && signature != ""
    case OtherBlock => false
  }

  predicate Readable(message: Message) {
    message.role.Some? && message.blocks != []
    && forall i :: 0 <= i < |message.blocks| ==> Admissible(message.role.value, message.blocks[i])
  }

  function Entries(role: Role, blocks: seq<Block>): seq<Entry> {
    seq(|blocks|, i requires 0 <= i < |blocks| => Entry(role, blocks[i]))
  }

  function Flattened(messages: seq<Message>): seq<Entry>
    requires forall i :: 0 <= i < |messages| ==> Readable(messages[i])
  {
    if messages == [] then []
    else
      var last := messages[|messages| - 1];
      assert Readable(last);
      Flattened(messages[..|messages| - 1]) + Entries(last.role.value, last.blocks)
  }

  /** Every block of every message, in order, when all of them are supported. */
  function History(messages: seq<Message>): Option<seq<Entry>> {
    if messages == [] || exists i :: 0 <= i < |messages| && !Readable(messages[i]) then None
    else Some(Flattened(messages))
  }

  method NormalizedHistory(messages: seq<Message>) returns (r: Option<seq<Entry>>)
    ensures r == History(messages)
  {
    if messages == [] { return None; }
    var result := [];
    for i := 0 to |messages|
      invariant forall k :: 0 <= k < i ==> Readable(messages[k])
      invariant result == Flattened(messages[..i])
    {
      var message := messages[i];
      if message.role.None? || message.blocks == [] {
        assert !Readable(messages[i]);
        return None;
      }
      ghost var before := result;
      for j := 0 to |message.blocks|
        invariant forall k :: 0 <= k < j ==> Admissible(message.role.value, message.blocks[k])
        invariant result == before + Entries(message.role.value, message.blocks[..j])
      {
        if !Admissible(message.role.value, message.blocks[j]) {
          assert !Readable(messages[i]);
          return None;
        }
        result := result + [Entry(message.role.value, message.blocks[j])];
      }
      assert message.blocks[..|message.blocks|] == message.blocks;
      assert messages[..i + 1][..i] == messages[..i];
    }
    assert messages[..|messages|] == messages;
    r := Some(result);
  }

  function Assistants(h: seq<Entry>): seq<Entry> {
    if h == [] then []
    else (if h[0].role.Assistant? then [h[0]] else []) + Assistants(h[1..])
  }

  function Others(h: seq<Entry>): seq<Entry> {
    if h == [] then []
    else (if h[0].role.Assistant? then [] else [h[0]]) + Others(h[1..])
  }

  function Texts(h: seq<Entry>, role: Role): seq<Entry> {
    if h == [] then []
    else (if h[0].role == role && h[0].block.TextBlock? then [h[0]] else []) + Texts(h[1..], role)
  }

  /** The tool results a history holds, by the call they answer. */
  function Results(h: seq<Entry>): map<string, Entry> {
    if h == [] then map[]
    else
      var rest := Results(h[..|h| - 1]);
      var last := h[|h| - 1];
      if last.block.ToolResult? then rest[last.block.call := last] else rest
  }

  /** No call is answered twice, nor one already seen answered. */
  predicate NoResultTwice(h: seq<Entry>, seen: set<string>) {
    h == []
    || if h[0].block.ToolResult? then h[0].block.call !in seen && NoResultTwice(h[1..], seen + {h[0].block.call})
       else NoResultTwice(h[1..], seen)
  }

  function Answered(h: seq<Entry>): set<string> {
    if h == [] then {}
    else (if h[0].block.ToolResult? then {h[0].block.call} else {}) + Answered(h[1..])
  }

  predicate SameResult(e: Entry, prior: map<string, Entry>) {
    e.block.ToolResult? && e.block.call in prior ==> e == prior[e.block.call]
  }

  /** What the caller adds: texts beyond those on record for their role, and results for
      calls without one. */
  function Beyond(h: seq<Entry>, user: nat, system: nat, prior: map<string, Entry>): seq<Entry> {
    if h == [] then []
    else
      var e, rest := h[0], h[1..];
      if e.block.ToolResult? then
        (if e.block.call in prior then [] else [e]) + Beyond(rest, user, system, prior)
      else if e.role.System? then
        if system > 0 then Beyond(rest, user, system - 1, prior) else [e] + Beyond(rest, user, 0, prior)
      else
        if user > 0 then Beyond(rest, user - 1, system, prior) else [e] + Beyond(rest, 0, system, prior)
  }

  function New(h: seq<Entry>, previous: seq<Entry>): seq<Entry> {
    var prior := Others(previous);
    Beyond(Others(h), |Texts(prior, User)|, |Texts(prior, System)|, Results(prior))
  }

  /** The history is the one on record, except for what it adds. */
  predicate Continues(h: seq<Entry>, previous: seq<Entry>) {
    var users, prior := Others(h), Others(previous);
    && Assistants(h) == Assistants(previous)
    && Texts(prior, User) <= Texts(users, User) && Texts(prior, System) <= Texts(users, System)
    && NoResultTwice(users, {})
    && (forall i :: 0 <= i < |users| ==> SameResult(users[i], Results(prior)))
    && Results(prior).Keys <= Answered(users)
  }

  function Sent(e: Entry): Item {
    match e.block
    case ToolResult(call, content, isError) => Output(call, content, isError)
    case TextBlock(text) => Input(e.role, text)
    case _ => Foreign("")
  }

  predicate Supported(added: seq<Entry>) {
    forall i :: 0 <= i < |added| ==> added[i].block.ToolResult? || added[i].block.TextBlock?
  }

  function Translated(added: seq<Entry>): seq<Item> {
    if added == [] then [] else Translated(added[..|added| - 1]) + [Sent(added[|added| - 1])]
  }

  // ------------------------------------------------------------------------- requests

  datatype Tool = Tool(name: string, description: string, schema: Json)

  datatype Choice = Choice(kind: string, name: Option<string>, disableParallel: bool)

  datatype Body = Body(
    model: string,
    stream: bool,
    maxTokens: int,
    thinking: Option<Json>,
    outputConfig: Option<Json>,
    contextManagement: Option<Json>,
    system: seq<string>,
    messages: seq<Message>,
    tools: seq<Tool>,
    choice: Choice)

  /** The bound intent, and whether the operator accepted the backend's output budget. */
  datatype Profile = Profile(model: string, effort: Option<string>, defaultBudget: bool)

  datatype Conversation = Conversation(
    instructions: Option<string>, history: seq<Entry>, input: seq<Item>, pendingTools: set<string>)

  const BLANK := Conversation(None, [], [], {})

  const ADAPTIVE := Object(map["type" := Text("adaptive")])
  const KEEP_THINKING :=
    Object(map["edits" := List([Object(map["type" := Text("clear_thinking_20251015"), "keep" := Text("all")])])])

  /** What the bound intent leaves no room to change. */
  predicate Plain(body: Body, profile: Profile) {
    var effort := profile.effort.Some? && profile.effort.value != "";
    && body.model == profile.model && body.stream && body.maxTokens > 0 && profile.defaultBudget
    && (body.thinking.Some? ==> body.thinking.value == ADAPTIVE && effort)
    && (body.outputConfig.Some? ==> effort && body.outputConfig.value == Object(map["effort" := Text(profile.effort.value)]))
    && (body.contextManagement.Some? ==> body.contextManagement.value == KEEP_THINKING)
  }

  function Names(tools: seq<Tool>): set<string> {
    if tools == [] then {} else Names(tools[..|tools| - 1]) + {tools[|tools| - 1].name}
  }

  predicate ToolsFit(tools: seq<Tool>) {
    tools == []
    || (var last := tools[|tools| - 1];
        && last.name != "" && last.schema.Object?
        && last.name !in Names(tools[..|tools| - 1]) && ToolsFit(tools[..|tools| - 1]))
  }

  predicate ChoiceFits(choice: Choice, tools: seq<Tool>) {
    && choice.kind in {"auto", "any", "none", "tool"}
    && (if choice.kind == "tool" then choice.name.Some? && choice.name.value in Names(tools) else choice.name.None?)
    && (tools != [] || choice.kind in {"auto", "none"})
  }

  datatype Outgoing = Outgoing(
    profile: Profile, instructions: string, input: seq<Item>, tools: seq<Tool>, choice: Choice, cacheKey: string)

  datatype Prepared = Prepared(outgoing: Outgoing, history: seq<Entry>, names: set<string>)

  function Joined(texts: seq<string>): string {
    if texts == [] then ""
    else if |texts| == 1 then texts[0]
    else texts[0] + "\n\n" + Joined(texts[1..])
  }

  /** The turn is accepted exactly when the history continues the one on record, it asks
      something new, and it answers every pending call once. */
  function Preparation(body: Body, profile: Profile, c: Conversation, cacheKey: string, fits: Outgoing -> bool): Option<Prepared> {
    var history := History(body.messages);
    if !Plain(body, profile) || history.None? then None
    else
      var h, instructions := history.value, Joined(body.system);
      var added := New(h, c.history);
      var outgoing := Outgoing(profile, instructions, c.input + Translated(added), body.tools, body.choice, cacheKey);
      if (c.instructions.Some? && c.instructions.value != instructions)
         || !Continues(h, c.history)
         || (forall i :: 0 <= i < |added| ==> !added[i].role.User?)
         || Answered(added) != c.pendingTools || !Supported(added)
         || !ToolsFit(body.tools) || !ChoiceFits(body.choice, body.tools)
         || !fits(outgoing) then None
      else Some(Prepared(outgoing, h, Names(body.tools)))
  }

  /** One entry peeled off what is left. */
  lemma Peel(users: seq<Entry>, i: nat, seen: set<string>, user: nat, system: nat, prior: map<string, Entry>)
    requires i < |users|
    ensures var e, rest := users[i], users[i + 1..];
      && Answered(users[i..]) == (if e.block.ToolResult? then {e.block.call} else {}) + Answered(rest)
      && (NoResultTwice(users[i..], seen) <==>
            if e.block.ToolResult? then e.block.call !in seen && NoResultTwice(rest, seen + {e.block.call})
            else NoResultTwice(rest, seen))
    ensures var e, rest := users[i], users[i + 1..];
      Beyond(users[i..], user, system, prior) ==
        if e.block.ToolResult? then (if e.block.call in prior then [] else [e]) + Beyond(rest, user, system, prior)
        else if e.role.System? then
          if system > 0 then Beyond(rest, user, system - 1, prior) else [e] + Beyond(rest, user, 0, prior)
        else
          if user > 0 then Beyond(rest, user - 1, system, prior) else [e] + Beyond(rest, 0, system, prior)
  {
    assert users[i..][1..] == users[i + 1..];
  }

  lemma NothingLeft(users: seq<Entry>, seen: set<string>, user: nat, system: nat, prior: map<string, Entry>)
    ensures Answered(users[|users|..]) == {} && NoResultTwice(users[|users|..], seen)
    ensures Beyond(users[|users|..], user, system, prior) == []
  {
  }

  /** What the loop over the caller's entries has established before entry `i`. */
  ghost predicate Scanned(users: seq<Entry>, i: nat, list: seq<Entry>, seen: set<string>, user: nat, system: nat,
      priorUser: nat, priorSystem: nat, prior: map<string, Entry>)
    requires i <= |users|
  {
    && (forall k :: 0 <= k < i ==> SameResult(users[k], prior))
    && (NoResultTwice(users, {}) <==> NoResultTwice(users[i..], seen))
    && Answered(users) == seen + Answered(users[i..])
    && Beyond(users, priorUser, priorSystem, prior)
      == list + Beyond(users[i..], Left(priorUser, user), Left(priorSystem, system), prior)
  }

  lemma ScanStarts(users: seq<Entry>, priorUser: nat, priorSystem: nat, prior: map<string, Entry>)
    ensures Scanned(users, 0, [], {}, 0, 0, priorUser, priorSystem, prior)
  {
    assert users[0..] == users;
    LeftSteps(priorUser, 0);
    LeftSteps(priorSystem, 0);
  }

  lemma ScanResult(users: seq<Entry>, i: nat, list: seq<Entry>, seen: set<string>, user: nat, system: nat,
      priorUser: nat, priorSystem: nat, prior: map<string, Entry>)
    requires i < |users| && Scanned(users, i, list, seen, user, system, priorUser, priorSystem, prior)
    requires users[i].block.ToolResult?
    ensures var e, call := users[i], users[i].block.call;
      && (call in seen ==> !NoResultTwice(users, {}))
      && (call !in seen && SameResult(e, prior) ==>
            Scanned(users, i + 1, list + if call in prior then [] else [e], seen + {call}, user, system,
                    priorUser, priorSystem, prior))
  {
    hide Answered, NoResultTwice, Beyond, Left, SameResult;
    var call, rest := users[i].block.call, users[i + 1..];
    Peel(users, i, seen, Left(priorUser, user), Left(priorSystem, system), prior);
    SetsJoin(seen, {call}, Answered(rest));
    var more := if call in prior then [] else [users[i]];
    SeqsJoin(list, more, Beyond(rest, Left(priorUser, user), Left(priorSystem, system), prior));
  }

  lemma SetsJoin(a: set<string>, b: set<string>, c: set<string>)
    ensures a + (b + c) == (a + b) + c
  {
  }

  lemma SeqsJoin(a: seq<Entry>, b: seq<Entry>, c: seq<Entry>)
    ensures a + (b + c) == (a + b) + c
  {
  }

  lemma ScanText(users: seq<Entry>, i: nat, list: seq<Entry>, seen: set<string>, user: nat, system: nat,
      priorUser: nat, priorSystem: nat, prior: map<string, Entry>)
    requires i < |users| && Scanned(users, i, list, seen, user, system, priorUser, priorSystem, prior)
    requires !users[i].block.ToolResult?
    ensures var e := users[i];
      if e.role.System? then
        Scanned(users, i + 1, list + if system >= priorSystem then [e] else [], seen, user, system + 1,
                priorUser, priorSystem, prior)
      else
        Scanned(users, i + 1, list + if user >= priorUser then [e] else [], seen, user + 1, system,
                priorUser, priorSystem, prior)
  {
    Peel(users, i, seen, Left(priorUser, user), Left(priorSystem, system), prior);
    LeftSteps(priorUser, user);
    LeftSteps(priorSystem, system);
    hide Answered, NoResultTwice, Beyond, Left;
  }

  lemma ScanEnds(users: seq<Entry>, list: seq<Entry>, seen: set<string>, user: nat, system: nat,
      priorUser: nat, priorSystem: nat, prior: map<string, Entry>)
    requires Scanned(users, |users|, list, seen, user, system, priorUser, priorSystem, prior)
    ensures NoResultTwice(users, {}) && Answered(users) == seen && Beyond(users, priorUser, priorSystem, prior) == list
    ensures forall i :: 0 <= i < |users| ==> SameResult(users[i], prior)
  {
    NothingLeft(users, seen, Left(priorUser, user), Left(priorSystem, system), prior);
    hide Answered, NoResultTwice, Beyond, Left;
    assert list + [] == list && seen + {} == seen;
  }

  /** The loop over the caller's side of the history. */
  method Fresh(users: seq<Entry>, priorUser: nat, priorSystem: nat, prior: map<string, Entry>) returns (added: Option<seq<Entry>>)
    ensures added == if NoResultTwice(users, {}) && (forall i :: 0 <= i < |users| ==> SameResult(users[i], prior))
                        && prior.Keys <= Answered(users)
                     then Some(Beyond(users, priorUser, priorSystem, prior)) else None
  {
    hide NoResultTwice, Answered, Beyond, Left, Scanned;
    var list, seen: set<string> := [], {};
    var user, system := 0, 0;
    ScanStarts(users, priorUser, priorSystem, prior);
    for i := 0 to |users|
      invariant Scanned(users, i, list, seen, user, system, priorUser, priorSystem, prior)
    {
      var e := users[i];
      if e.block.ToolResult? {
        ScanResult(users, i, list, seen, user, system, priorUser, priorSystem, prior);
        var call := e.block.call;
        if call in seen { return None; }
        seen := seen + {call};
        if call in prior {
          if e != prior[call] {
            assert !SameResult(users[i], prior);
            return None;
          }
          assert list + [] == list;
        } else {
          list := list + [e];
        }
      } else if e.role.System? {
        ScanText(users, i, list, seen, user, system, priorUser, priorSystem, prior);
        list := list + if system >= priorSystem then [e] else [];
        system := system + 1;
      } else {
        ScanText(users, i, list, seen, user, system, priorUser, priorSystem, prior);
        list := list + if user >= priorUser then [e] else [];
        user := user + 1;
      }
    }
    ScanEnds(users, list, seen, user, system, priorUser, priorSystem, prior);
    if !(prior.Keys <= seen) { return None; }
    added := Some(list);
  }

  lemma LeftSteps(total: nat, used: nat)
    ensures Left(total, used) > 0 <==> used < total
    ensures Left(total, used + 1) == if Left(total, used) > 0 then Left(total, used) - 1 else 0
    ensures Left(total, 0) == total
  {
  }

  function Left(total: nat, used: nat): nat { if used < total then total - used else 0 }

  /** The loop that turns what is new into input items, each result consuming a pending call. */
  method Consume(added: seq<Entry>, input: seq<Item>, pending: set<string>) returns (r: Option<seq<Item>>)
    requires NoResultTwice(added, {})
    ensures r == if Answered(added) == pending && Supported(added) then Some(input + Translated(added)) else None
  {
    var items, left := input, pending;
    ghost var taken: set<string> := {};
    assert added[0..] == added;
    for i := 0 to |added|
      invariant items == input + Translated(added[..i])
      invariant taken <= pending && left == pending - taken
      invariant NoResultTwice(added[i..], taken)
      invariant Answered(added) == taken + Answered(added[i..])
      invariant Supported(added[..i])
    {
      assert added[i..][1..] == added[i + 1..] && added[..i + 1][..i] == added[..i];
      match added[i].block {
        case ToolResult(call, content, isError) =>
          if call !in left { return None; }
          left := left - {call};
          taken := taken + {call};
          items := items + [Output(call, content, isError)];
        case TextBlock(text) =>
          items := items + [Input(added[i].role, text)];
        case _ =>
          assert !Supported(added);
          return None;
      }
    }
    assert added[..|added|] == added;
    if left != {} { return None; }
    r := Some(items);
  }

  method CheckTools(tools: seq<Tool>) returns (names: Option<set<string>>)
    ensures names == if ToolsFit(tools) then Some(Names(tools)) else None
  {
    var known: set<string> := {};
    for i := 0 to |tools|
      invariant known == Names(tools[..i]) && ToolsFit(tools[..i])
    {
      var name := tools[i].name;
      assert tools[..i + 1][..i] == tools[..i];
      if name == "" || name in known || !tools[i].schema.Object? {
        ToolsFitPrefix(tools, i + 1);
        return None;
      }
      known := known + {name};
    }
    assert tools[..|tools|] == tools;
    names := Some(known);
  }

  lemma {:induction false} ToolsFitPrefix(tools: seq<Tool>, i: nat)
    requires i <= |tools| && !ToolsFit(tools[..i])
    ensures !ToolsFit(tools)
    decreases |tools| - i
  {
    if i < |tools| {
      assert tools[..i + 1][..i] == tools[..i];
      ToolsFitPrefix(tools, i + 1);
    } else {
      assert tools[..i] == tools;
    }
  }

  method Prepare(body: Body, profile: Profile, c: Conversation, cacheKey: string, fits: Outgoing -> bool)
    returns (r: Option<Prepared>)
    ensures r == Preparation(body, profile, c, cacheKey, fits)
  {
    hide Plain, Beyond, NoResultTwice, ToolsFit, ChoiceFits, History;
    if !Plain(body, profile) { return None; }
    var instructions := Joined(body.system);
    if c.instructions.Some? && instructions != c.instructions.value { return None; }
    var history := NormalizedHistory(body.messages);
    if history.None? { return None; }
    var h, previous := history.value, c.history;
    var users, priorUsers := Others(h), Others(previous);
    if !(Texts(priorUsers, User) <= Texts(users, User)) || !(Texts(priorUsers, System) <= Texts(users, System))
       || Assistants(h) != Assistants(previous) {
      return None;
    }
    var added := Fresh(users, |Texts(priorUsers, User)|, |Texts(priorUsers, System)|, Results(priorUsers));
    if added.None? { return None; }
    if forall i :: 0 <= i < |added.value| ==> !added.value[i].role.User? { return None; }
    BeyondShrinks(users, |Texts(priorUsers, User)|, |Texts(priorUsers, System)|, Results(priorUsers), {});
    var input := Consume(added.value, c.input, c.pendingTools);
    if input.None? { return None; }
    var names := CheckTools(body.tools);
    if names.None? || !ChoiceFits(body.choice, body.tools) { return None; }
    var outgoing := Outgoing(profile, instructions, input.value, body.tools, body.choice, cacheKey);
    if !fits(outgoing) { return None; }
    r := Some(Prepared(outgoing, h, names.value));
  }

  // ------------------------------------------------------------------ what is added

  lemma {:induction false} BeyondShrinks(h: seq<Entry>, user: nat, system: nat, prior: map<string, Entry>, seen: set<string>)
    requires NoResultTwice(h, seen)
    ensures NoResultTwice(Beyond(h, user, system, prior), seen)
    ensures Answered(Beyond(h, user, system, prior)) <= Answered(h)
  {
    if h != [] {
      var e, rest := h[0], h[1..];
      var text, less := !e.block.ToolResult?, (n: nat) => if n > 0 then n - 1 else 0;
      var u: nat := if text && !e.role.System? then less(user) else user;
      var s: nat := if text && e.role.System? then less(system) else system;
      var next := if e.block.ToolResult? then seen + {e.block.call} else seen;
      BeyondShrinks(rest, u, s, prior, next);
      var tail := Beyond(rest, u, s, prior);
      assert Beyond(h, user, system, prior) == tail || Beyond(h, user, system, prior) == [e] + tail;
      TwiceMonotone(tail, seen, next);
      assert ([e] + tail)[1..] == tail;
    }
  }

  lemma {:induction false} TwiceMonotone(h: seq<Entry>, few: set<string>, many: set<string>)
    requires NoResultTwice(h, many) && few <= many
    ensures NoResultTwice(h, few)
  {
    if h != [] {
      if h[0].block.ToolResult? {
        TwiceMonotone(h[1..], few + {h[0].block.call}, many + {h[0].block.call});
      } else {
        TwiceMonotone(h[1..], few, many);
      }
    }
  }
}
