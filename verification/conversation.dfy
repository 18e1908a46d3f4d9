/** The bridge's conversations over time: what every accepted turn keeps, and a journal that
    lets no turn be sent twice. */
module Conversations {
  import opened Domain
  import opened Json
  import opened Translator
  import opened Responses
  import opened Stream
  import Turns

  // ------------------------------------------------------------ calls and their outputs

  function Calls(input: seq<Item>): set<string> {
    if input == [] then {}
    else
      var last := input[|input| - 1];
      Calls(input[..|input| - 1]) + if last.Call? then {last.call} else {}
  }

  function Outputs(input: seq<Item>): set<string> {
    if input == [] then {}
    else
      var last := input[|input| - 1];
      Outputs(input[..|input| - 1]) + if last.Output? then {last.call} else {}
  }

  /** Every call has an identifier of its own; every output comes after its call and is its first. */
  predicate WellFormed(input: seq<Item>) {
    input == []
    || (var before, last := input[..|input| - 1], input[|input| - 1];
        && WellFormed(before)
        && (last.Call? ==> last.call !in Calls(before))
        && (last.Output? ==> last.call in Calls(before) && last.call !in Outputs(before)))
  }

  ghost predicate Good(c: Conversation) {
    WellFormed(c.input) && c.pendingTools == Calls(c.input) - Outputs(c.input)
  }

  lemma {:induction false} CallsAt(input: seq<Item>, call: string)
    ensures call in Calls(input) <==> exists i :: 0 <= i < |input| && input[i].Call? && input[i].call == call
    ensures call in Outputs(input) <==> exists i :: 0 <= i < |input| && input[i].Output? && input[i].call == call
  {
    if input != [] {
      var before := input[..|input| - 1];
      CallsAt(before, call);
      assert forall i :: 0 <= i < |before| ==> before[i] == input[i];
    }
  }

  /** The same, read by position. */
  lemma {:induction false} WellFormedMeans(input: seq<Item>, i: nat, j: nat)
    requires WellFormed(input) && i < j < |input|
    ensures input[i].Call? && input[j].Call? ==> input[i].call != input[j].call
    ensures input[i].Output? && input[j].Output? ==> input[i].call != input[j].call
    ensures input[j].Output? ==> exists k :: 0 <= k < j && input[k].Call? && input[k].call == input[j].call
  {
    var before := input[..|input| - 1];
    if j < |before| {
      WellFormedMeans(before, i, j);
      assert before[i] == input[i] && before[j] == input[j];
      if input[j].Output? {
        var k :| 0 <= k < j && before[k].Call? && before[k].call == before[j].call;
        assert input[k] == before[k];
      }
    } else {
      assert before[i] == input[i];
      if input[j].Call? || input[j].Output? {
        CallsAt(before, input[j].call);
      }
      if input[j].Output? {
        var k :| 0 <= k < |before| && before[k].Call? && before[k].call == input[j].call;
        assert input[k] == before[k];
      }
    }
  }

  lemma ItemsGrow(input: seq<Item>, item: Item)
    ensures Calls(input + [item]) == Calls(input) + if item.Call? then {item.call} else {}
    ensures Outputs(input + [item]) == Outputs(input) + if item.Output? then {item.call} else {}
    ensures WellFormed(input + [item]) <==>
      && WellFormed(input)
      && (item.Call? ==> item.call !in Calls(input))
      && (item.Output? ==> item.call in Calls(input) && item.call !in Outputs(input))
  {
    assert (input + [item])[..|input|] == input;
  }

  lemma {:induction false} AnsweredLast(added: seq<Entry>, seen: set<string>)
    requires added != []
    ensures var before, last := added[..|added| - 1], added[|added| - 1];
      && Answered(added) == Answered(before) + (if last.block.ToolResult? then {last.block.call} else {})
      && (NoResultTwice(added, seen) <==>
            NoResultTwice(before, seen)
            && (last.block.ToolResult? ==> last.block.call !in seen && last.block.call !in Answered(before)))
  {
    if |added| == 1 {
      assert added[..0] == [] && added[1..] == [];
    } else {
      var rest := added[1..];
      var next := if added[0].block.ToolResult? then seen + {added[0].block.call} else seen;
      AnsweredLast(rest, next);
      assert rest[..|rest| - 1] == added[..|added| - 1][1..];
      assert added[..|added| - 1][0] == added[0];
    }
  }

  lemma ItemsJoin(a: seq<Item>, b: seq<Item>, c: seq<Item>)
    ensures a + (b + c) == a + b + c
  {
  }

  /** New results each answer a call that was waiting. */
  lemma {:induction false} AnswersKeep(input: seq<Item>, added: seq<Entry>)
    requires WellFormed(input) && NoResultTwice(added, {}) && Answered(added) <= Calls(input) - Outputs(input)
    ensures WellFormed(input + Translated(added)) && Calls(input + Translated(added)) == Calls(input)
    ensures Outputs(input + Translated(added)) == Outputs(input) + Answered(added)
  {
    if added == [] {
      assert input + Translated(added) == input;
    } else {
      AnsweredLast(added, {});
      var before := added[..|added| - 1];
      hide Calls, Outputs, WellFormed, Answered, NoResultTwice;
      AnswersKeep(input, before);
      ItemsGrow(input + Translated(before), Sent(added[|added| - 1]));
      ItemsJoin(input, Translated(before), [Sent(added[|added| - 1])]);
    }
  }

  /** A response's calls are new, and none is answered yet. */
  lemma {:induction false} ResponseKeeps(input: seq<Item>, output: seq<Item>, names: set<string>, codec: Codec)
    requires WellFormed(input) && SpeakAll(output, names, codec).Some?
    requires SpeakAll(output, names, codec).value.calls !! Calls(input)
    ensures WellFormed(input + output) && Outputs(input + output) == Outputs(input)
    ensures Calls(input + output) == Calls(input) + SpeakAll(output, names, codec).value.calls
  {
    if output == [] {
      assert input + output == input;
    } else {
      var before, last := output[..|output| - 1], output[|output| - 1];
      ResponseKeeps(input, before, names, codec);
      ItemsGrow(input + before, last);
      assert input + output == input + before + [last];
    }
  }

  // --------------------------------------------------------------------- one turn

  function Extended(p: Prepared, output: seq<Item>, reply: Reply): Conversation {
    Conversation(Some(p.outgoing.instructions), p.history + reply.assistant, p.outgoing.input + output, reply.calls)
  }

  lemma {:induction false} AllAssistant(blocks: seq<Block>)
    ensures Assistants(Entries(Assistant, blocks)) == Entries(Assistant, blocks)
  {
    if blocks != [] {
      AllAssistant(blocks[1..]);
      assert Entries(Assistant, blocks)[1..] == Entries(Assistant, blocks[1..]);
      assert Entries(Assistant, blocks) == [Entry(Assistant, blocks[0])] + Entries(Assistant, blocks[1..]);
    }
  }

  /** After the caller's part of a turn nothing is left unanswered. */
  lemma AskKeeps(c: Conversation, h: seq<Entry>)
    requires Good(c) && Continues(h, c.history) && Answered(New(h, c.history)) == c.pendingTools
    ensures var input := c.input + Translated(New(h, c.history));
      WellFormed(input) && Calls(input) == Calls(c.input) == Outputs(input)
  {
    var prior := Others(c.history);
    BeyondShrinks(Others(h), |Texts(prior, User)|, |Texts(prior, System)|, Results(prior), {});
    var added := New(h, c.history);
    hide Continues, Beyond, New, Translated;
    AnswersKeep(c.input, added);
    OutputsAreCalls(c.input);
  }

  lemma {:induction false} OutputsAreCalls(input: seq<Item>)
    requires WellFormed(input)
    ensures Outputs(input) <= Calls(input)
  {
    if input != [] { OutputsAreCalls(input[..|input| - 1]); }
  }

  /** After the response exactly its calls are. */
  lemma ReplyKeeps(input: seq<Item>, output: seq<Item>, names: set<string>, codec: Codec)
    requires WellFormed(input) && Calls(input) == Outputs(input) && SpeakAll(output, names, codec).Some?
    requires SpeakAll(output, names, codec).value.calls !! Calls(input)
    ensures WellFormed(input + output)
    ensures Calls(input + output) - Outputs(input + output) == SpeakAll(output, names, codec).value.calls
  {
    ResponseKeeps(input, output, names, codec);
    hide *;
  }

  /** What a prepared request says of its body and the conversation it continues. */
  lemma PreparationMeans(body: Body, profile: Profile, c: Conversation, key: string, wire: Outgoing -> bool)
    requires Preparation(body, profile, c, key, wire).Some?
    ensures var p := Preparation(body, profile, c, key, wire).value;
      && History(body.messages) == Some(p.history) && Continues(p.history, c.history)
      && Answered(New(p.history, c.history)) == c.pendingTools
      && p.outgoing.input == c.input + Translated(New(p.history, c.history))
      && (c.instructions.Some? ==> c.instructions.value == p.outgoing.instructions)
  {
    hide Plain, History, Continues, New, Translated, ToolsFit, ChoiceFits, Joined, Names, Supported;
  }

  /** An accepted turn keeps the conversation good, only appends to its input, and adds
      assistant entries to those the body had to repeat. */
  lemma TurnKeeps(body: Body, profile: Profile, c: Conversation, key: string, wire: Outgoing -> bool, r: Response,
      model: string, codec: Codec, fits: seq<Event> -> bool)
    requires Good(c) && Preparation(body, profile, c, key, wire).Some?
    requires var p := Preparation(body, profile, c, key, wire).value;
      Replied(r, model, p.names, codec, fits).Some? && Replied(r, model, p.names, codec, fits).value.calls !! Calls(c.input)
    ensures var p := Preparation(body, profile, c, key, wire).value;
      var d := Extended(p, r.output, Replied(r, model, p.names, codec, fits).value);
      && Good(d) && c.input <= d.input
      && |Assistants(c.history)| == |Assistants(p.history)| < |Assistants(d.history)|
  {
    PreparationMeans(body, profile, c, key, wire);
    var p := Preparation(body, profile, c, key, wire).value;
    var blocks := SpeakAll(r.output, p.names, codec).value.blocks;
    hide Preparation, History, New, Translated, SpeakAll, Emitted, Calls, Outputs, WellFormed, Assistants, Texts, Others,
         Answered, NoResultTwice;
    AskKeeps(c, p.history);
    ReplyKeeps(p.outgoing.input, r.output, p.names, codec);
    Turns.AssistantsJoin(p.history, Entries(Assistant, blocks));
    AllAssistant(blocks);
  }

  /** A body whose assistant history is shorter than the conversation's is refused. */
  lemma OldBodiesAreRefused(body: Body, profile: Profile, c: Conversation, key: string, wire: Outgoing -> bool)
    requires History(body.messages).Some? && |Assistants(History(body.messages).value)| != |Assistants(c.history)|
    ensures Preparation(body, profile, c, key, wire).None?
  {
    hide Plain, History, New, Translated, ToolsFit, ChoiceFits, Joined, Names, Supported, Assistants, Texts, Others;
  }

  // ------------------------------------------------------------------------ the bridge

  type AgentId = string

  datatype State = State(
    parent: Conversation,
    agents: map<AgentId, Conversation>,
    session: Option<string>,        // the established native session
    pending: Option<string>,        // the operation in flight, until its turn is delivered
    attempts: seq<string>)

  const INITIAL := State(BLANK, map[], None, None, [])

  /** The conversation of the caller, or of one of its agents; a new agent starts blank. */
  function ConversationOf(s: State, agent: Option<AgentId>): Conversation {
    match agent
    case None => s.parent
    case Some(id) => if id in s.agents then s.agents[id] else BLANK
  }

  function WithConversation(s: State, agent: Option<AgentId>, c: Conversation): State {
    match agent
    case None => s.(parent := c)
    case Some(id) => s.(agents := s.agents[id := c])
  }

  ghost predicate AllGood(s: State) { forall agent :: Good(ConversationOf(s, agent)) }

  /** An accepted turn: whose, and how many assistant entries its body repeated. */
  datatype Turn = Turn(agent: Option<AgentId>, body: Body)

  /** The conversation has moved past the turn's body. */
  ghost predicate Past(t: Turn, s: State) {
    && History(t.body.messages).Some?
    && |Assistants(History(t.body.messages).value)| < |Assistants(ConversationOf(s, t.agent).history)|
  }

  ghost predicate AllPast(turns: set<Turn>, s: State) { forall t :: t in turns ==> Past(t, s) }

  /** Every conversation is where it was. */
  ghost predicate SameConversations(s: State, u: State) {
    forall agent :: ConversationOf(u, agent) == ConversationOf(s, agent)
  }

  lemma SameKeeps(turns: set<Turn>, s: State, u: State)
    requires AllGood(s) && SameConversations(s, u)
    ensures AllGood(u) && (AllPast(turns, s) ==> AllPast(turns, u))
  {
    hide Good;
  }

  lemma PastStands(turns: set<Turn>, s: State, t: Turn)
    requires AllPast(turns, s) && t in turns
    ensures Past(t, s)
  {
  }

  /** One conversation is extended past a body that repeated all of it. */
  lemma ExtendKeeps(turns: set<Turn>, s: State, agent: Option<AgentId>, d: Conversation, t: Turn, h: seq<Entry>)
    requires AllGood(s) && AllPast(turns, s) && Good(d) && t.agent == agent && History(t.body.messages) == Some(h)
    requires |Assistants(ConversationOf(s, agent).history)| == |Assistants(h)| < |Assistants(d.history)|
    ensures var u := WithConversation(s, agent, d); AllGood(u) && AllPast(turns + {t}, u)
  {
    hide Good, History, Assistants;
    var u := WithConversation(s, agent, d);
    assert forall other :: other != agent ==> ConversationOf(u, other) == ConversationOf(s, other);
    assert ConversationOf(u, agent) == d;
    forall x | x in turns + {t}
      ensures Past(x, u)
    {
      if x in turns { assert Past(x, s); }
    }
  }

  lemma TurnGoes(body: Body, profile: Profile, c: Conversation, key: string, wire: Outgoing -> bool, p: Prepared,
      r: Response, codec: Codec, fits: seq<Event> -> bool, reply: Reply)
    requires Good(c) && Preparation(body, profile, c, key, wire) == Some(p)
    requires Replied(r, profile.model, p.names, codec, fits) == Some(reply) && reply.calls !! Calls(c.input)
    ensures var d := Extended(p, r.output, reply);
      Good(d) && c.input <= d.input && |Assistants(c.history)| == |Assistants(p.history)| < |Assistants(d.history)|
  {
    TurnKeeps(body, profile, c, key, wire, r, profile.model, codec, fits);
    hide *;
  }

  lemma Placed(s: State, agent: Option<AgentId>, d: Conversation)
    ensures var u := WithConversation(s, agent, d);
      && u.pending == s.pending && u.session == s.session && u.attempts == s.attempts && ConversationOf(u, agent) == d
      && u.agents.Keys == s.agents.Keys + (if agent.Some? then {agent.value} else {})
      && forall other :: other != agent ==> ConversationOf(u, other) == ConversationOf(s, other)
  {
  }

  /** An accepted turn, recorded. */
  lemma TurnRecorded(turns: set<Turn>, s: State, agent: Option<AgentId>, body: Body, profile: Profile, key: string,
      wire: Outgoing -> bool, p: Prepared, r: Response, codec: Codec, fits: seq<Event> -> bool, reply: Reply)
    requires AllGood(s) && AllPast(turns, s)
    requires Preparation(body, profile, ConversationOf(s, agent), key, wire) == Some(p)
    requires History(body.messages) == Some(p.history)
    requires Replied(r, profile.model, p.names, codec, fits) == Some(reply)
    requires reply.calls !! Calls(ConversationOf(s, agent).input)
    ensures var u := WithConversation(s, agent, Extended(p, r.output, reply));
      && AllGood(u) && AllPast(turns + {Turn(agent, body)}, u) && u.pending == s.pending
      && (forall other :: other != agent ==> ConversationOf(u, other) == ConversationOf(s, other))
      && ConversationOf(s, agent).input <= ConversationOf(u, agent).input
  {
    var c, d := ConversationOf(s, agent), Extended(p, r.output, reply);
    assert Good(c);
    TurnGoes(body, profile, c, key, wire, p, r, codec, fits, reply);
    hide *;
    Placed(s, agent, d);
    ExtendKeeps(turns, s, agent, Extended(p, r.output, reply), Turn(agent, body), p.history);
  }

  lemma PendingKeeps(turns: set<Turn>, s: State, pending: Option<string>)
    requires AllGood(s) && AllPast(turns, s)
    ensures var u := s.(pending := pending);
      AllGood(u) && AllPast(turns, u) && forall agent :: ConversationOf(u, agent) == ConversationOf(s, agent)
  {
    SameKeeps(turns, s, s.(pending := pending));
  }

  /** How a save of the journal went. */
  datatype Saved = Stored | NotStored | StoredUnnoticed

  datatype Upstreamed =
    | HttpError(attempt: Option<string>)
    | NoAnswer
    | Answering(attempt: Option<string>, raw: Bytes)   // None: unusable headers

  datatype World = World(first: Saved, upstream: Upstreamed, second: Saved, third: Saved, delivered: bool, fourth: Saved)

  datatype Request = Request(session: Option<string>, agent: Option<AgentId>, body: Option<Body>)

  datatype Send = Send(operation: string, outgoing: Outgoing)

  const MAX_ATTEMPTS: nat := 64
  const MAX_AGENTS: nat := 64

  /** The reply is the answer's translation, and the conversation is extended by that very answer. */
  ghost predicate Told(c: Conversation, p: Prepared, model: string, codec: Codec, decoder: Decoder, fits: seq<Event> -> bool,
      upstream: Upstreamed, reply: seq<Event>, d: Conversation)
  {
    && upstream.Answering? && upstream.attempt.Some?
    && var response := Understood(upstream.raw, decoder);
    && response.Some?
    && var told := Replied(response.value, model, p.names, codec, fits);
    && told.Some? && told.value.calls !! Calls(c.input)
    && reply == told.value.events
    && d.instructions == Some(p.outgoing.instructions) && d.history == p.history + told.value.assistant
    && d.input == p.outgoing.input + response.value.output && d.pendingTools == told.value.calls
  }

  /** The answer is one the conversation can be extended by. */
  ghost predicate Usable(c: Conversation, p: Prepared, model: string, codec: Codec, decoder: Decoder, fits: seq<Event> -> bool,
      upstream: Upstreamed)
  {
    && upstream.Answering? && upstream.attempt.Some?
    && var response := Understood(upstream.raw, decoder);
    && response.Some?
    && var told := Replied(response.value, model, p.names, codec, fits);
    && told.Some? && told.value.calls !! Calls(c.input)
  }

  lemma UsableAnswers(c: Conversation, p: Prepared, model: string, codec: Codec, decoder: Decoder, fits: seq<Event> -> bool,
      upstream: Upstreamed)
    ensures Usable(c, p, model, codec, decoder, fits, upstream) ==> upstream.Answering? && upstream.attempt.Some?
  {
  }

  /** The attempt the router named, if it did. */
  function Named(upstream: Upstreamed): seq<string> {
    match upstream
    case HttpError(Some(attempt)) => [attempt]
    case Answering(Some(attempt), _) => [attempt]
    case _ => []
  }

  /** The session is the request's from now on, its agent is known, and these attempts are on record. */
  ghost predicate Notes(s: State, u: State, request: Request, attempts: seq<string>) {
    && u.session == (if request.session.Some? then request.session else s.session)
    && u.agents.Keys == s.agents.Keys + (if request.agent.Some? then {request.agent.value} else {})
    && u.attempts == attempts
  }

  predicate Stores(w: World) { w.first.Stored? && w.second.Stored? && w.third.Stored? && w.delivered }

  /** A request that may be taken up: nothing is in flight, there is room, and it is the session's. */
  predicate Welcome(s: State, request: Request) {
    && s.pending.None? && |s.attempts| < 64 && request.body.Some?
    && (s.session.Some? ==> request.session == s.session)
    && (request.agent.Some? ==>
          && s.session.Some? && request.session == s.session
          && (request.agent.value in s.agents || |s.agents| < 64))
  }

  /** The conversation stays, or is extended by the answer, handed over or not. */
  ghost predicate Heard(c: Conversation, p: Option<Prepared>, model: string, codec: Codec, decoder: Decoder,
      fits: seq<Event> -> bool, upstream: Upstreamed, d: Conversation)
  {
    d == c || (p.Some? && exists events :: Told(c, p.value, model, codec, decoder, fits, upstream, events, d))
  }

  class Bridge {
    const profile: Profile
    const codec: Codec
    const decoder: Decoder
    const binding: string
    const wire: Outgoing -> bool           // the translated request is within the limit
    const fits: seq<Event> -> bool         // the translated stream is
    const agentKey: (string, string) -> string
    var state: State
    var disk: State
    ghost var sends: seq<Send>
    ghost var turns: set<Turn>

    ghost predicate Valid()
      reads this
    {
      && AllGood(state) && AllGood(disk)
      && AllPast(turns, state) && (disk.pending.None? ==> AllPast(turns, disk))
    }

    constructor (profile: Profile, codec: Codec, decoder: Decoder, binding: string, wire: Outgoing -> bool,
        fits: seq<Event> -> bool, agentKey: (string, string) -> string)
      ensures Valid() && state == INITIAL && disk == INITIAL && sends == [] && turns == {}
    {
      this.profile, this.codec, this.decoder, this.binding := profile, codec, decoder, binding;
      this.wire, this.fits, this.agentKey := wire, fits, agentKey;
      state, disk, sends, turns := INITIAL, INITIAL, [], {};
    }

    method Save(outcome: Saved) returns (ok: bool)
      modifies this`disk
      ensures ok == outcome.Stored? && disk == if outcome.NotStored? then old(disk) else state
    {
      if outcome.NotStored? { return false; }
      disk := state;
      ok := outcome.Stored?;
    }

    /** Starting again from the journal is refused while an operation is unaccounted for. */
    method Restart() returns (ok: bool)
      requires Valid()
      modifies this`state
      ensures Valid() && ok == disk.pending.None? && state == if ok then disk else old(state)
    {
      if disk.pending.Some? { return false; }
      state := disk;
      ok := true;
    }

    /** The cache key names the binding, and an agent's conversation apart. */
    function KeyOf(agent: Option<AgentId>): string {
      if agent.Some? then agentKey(binding, agent.value) else binding
    }

    /** What the request's body asks of the conversation it continues. */
    ghost function Asked(s: State, request: Request): Option<Prepared> {
      if request.body.None? then None
      else Preparation(request.body.value, profile, ConversationOf(s, request.agent), KeyOf(request.agent), wire)
    }

    /** One native request. What is returned was handed to the caller. */
    method DoPost(request: Request, operation: string, w: World) returns (reply: Option<seq<Event>>)
      requires Valid()
      modifies this
      ensures Valid()
      ensures old(state.pending).Some? ==> reply.None? && state == old(state) && disk == old(disk) && sends == old(sends)
      // At most one request is sent, only for a body never accepted before, and only with
      // the operation on disk as pending; it stays pending until its turn is delivered.
      ensures sends != old(sends) ==>
        && Asked(old(state), request).Some?
        && sends == old(sends) + [Send(operation, Asked(old(state), request).value.outgoing)]
      ensures sends != old(sends) ==> Turn(request.agent, request.body.value) !in old(turns)
      ensures sends != old(sends) && state.pending.None? ==> reply.Some? && disk == state
      ensures sends != old(sends) && reply.None? ==> state.pending == Some(operation) && disk.pending == Some(operation)
      ensures reply.Some? ==> sends != old(sends) && turns == old(turns) + {Turn(request.agent, request.body.value)}
      // What is handed over is the translation of the answer the conversation is extended by.
      ensures reply.Some? ==>
        Told(ConversationOf(old(state), request.agent), Asked(old(state), request).value, profile.model, codec, decoder, fits,
             w.upstream, reply.value, ConversationOf(state, request.agent))
      ensures Heard(ConversationOf(old(state), request.agent), Asked(old(state), request), profile.model, codec, decoder, fits,
                    w.upstream, ConversationOf(state, request.agent))
      // A welcome request that is understood, stored and delivered is answered.
      ensures Welcome(old(state), request) && Asked(old(state), request).Some? && Stores(w) ==>
        var c, p := ConversationOf(old(state), request.agent), Asked(old(state), request).value;
        (Usable(c, p, profile.model, codec, decoder, fits, w.upstream) ==> reply.Some?)
      ensures !Welcome(old(state), request) || Asked(old(state), request).None? ==>
        reply.None? && sends == old(sends) && state == old(state) && disk == old(disk)
      // It is sent exactly if that could be recorded first, and leaves its marks.
      ensures Welcome(old(state), request) && Asked(old(state), request).Some? ==>
        && (sends != old(sends) <==> w.first.Stored?)
        && Notes(old(state), state, request, old(state.attempts) + if w.first.Stored? then Named(w.upstream) else [])
      // Only the asking conversation moves, and its input is only appended to.
      ensures forall agent :: agent != request.agent ==> ConversationOf(state, agent) == ConversationOf(old(state), agent)
      ensures ConversationOf(old(state), request.agent).input <= ConversationOf(state, request.agent).input
      ensures old(turns) <= turns
    {
      hide Preparation, AllGood, AllPast, Told, Usable, Notes, Named;
      if state.pending.Some? || |state.attempts| >= MAX_ATTEMPTS || request.body.None? { return None; }
      if state.session.Some? && request.session != state.session { return None; }
      if request.agent.Some? {
        if request.session.None? || request.session != state.session { return None; }
        if request.agent.value !in state.agents && |state.agents| >= MAX_AGENTS { return None; }
      }
      var body := request.body.value;
      var c := ConversationOf(state, request.agent);
      var key := KeyOf(request.agent);
      var prepared := Prepare(body, profile, c, key, wire);
      if prepared.None? { return None; }
      ghost var t := Turn(request.agent, body);
      if t in turns {
        PastStands(turns, state, t);
        OldBodiesAreRefused(body, profile, c, key, wire);
      }
      PreparationMeans(body, profile, c, key, wire);
      reply := Exchange(request, body, c, key, prepared.value, operation, w);
    }

    /** The fence goes up, the request goes out, and the turn is recorded before it is delivered. */
    method Exchange(request: Request, ghost body: Body, c: Conversation, ghost key: string, p: Prepared, operation: string, w: World)
      returns (reply: Option<seq<Event>>)
      requires Valid() && state.pending.None? && c == ConversationOf(state, request.agent)
      requires Preparation(body, profile, c, key, wire) == Some(p) && History(body.messages) == Some(p.history)
      modifies this
      ensures Valid()
      ensures sends == old(sends) || sends == old(sends) + [Send(operation, p.outgoing)]
      ensures sends != old(sends) && state.pending.None? ==> reply.Some? && disk == state
      ensures sends != old(sends) && reply.None? ==> state.pending == Some(operation) && disk.pending == Some(operation)
      ensures reply.Some? ==> sends != old(sends) && turns == old(turns) + {Turn(request.agent, body)}
      ensures reply.Some? ==>
        Told(c, p, profile.model, codec, decoder, fits, w.upstream, reply.value, ConversationOf(state, request.agent))
      ensures Heard(c, Some(p), profile.model, codec, decoder, fits, w.upstream, ConversationOf(state, request.agent))
      ensures Stores(w) ==>
        (Usable(c, p, profile.model, codec, decoder, fits, w.upstream) ==> reply.Some?)
      ensures sends != old(sends) <==> w.first.Stored?
      ensures Notes(old(state), state, request, old(state.attempts) + if w.first.Stored? then Named(w.upstream) else [])
      ensures forall agent :: agent != request.agent ==> ConversationOf(state, agent) == ConversationOf(old(state), agent)
      ensures c.input <= ConversationOf(state, request.agent).input
      ensures old(turns) <= turns
    {
      hide Preparation, Understood, Replied, Good, Past, Told, History, Calls, Usable, Named;
      if request.agent.Some? { state := WithConversation(state, request.agent, c); }
      if request.session.Some? { state := state.(session := request.session); }
      state := state.(pending := Some(operation));
      SameKeeps(turns, old(state), state);
      hide AllGood, AllPast;
      UsableAnswers(c, p, profile.model, codec, decoder, fits, w.upstream);
      var saved := Save(w.first);
      if !saved { return None; }
      sends := sends + [Send(operation, p.outgoing)];
      reply := Receive(request, body, c, key, p, operation, w);
    }

    /** What came back is recorded, and a usable answer delivered. */
    method Receive(request: Request, ghost body: Body, c: Conversation, ghost key: string, p: Prepared, operation: string, w: World)
      returns (reply: Option<seq<Event>>)
      requires Valid() && state.pending == Some(operation) == disk.pending && c == ConversationOf(state, request.agent)
      requires request.agent.Some? ==> request.agent.value in state.agents
      requires Preparation(body, profile, c, key, wire) == Some(p) && History(body.messages) == Some(p.history)
      modifies this`state, this`disk, this`turns
      ensures Valid()
      ensures state.pending.None? ==> reply.Some? && disk == state
      ensures reply.None? ==> state.pending == Some(operation) && disk.pending == Some(operation)
      ensures reply.Some? ==> turns == old(turns) + {Turn(request.agent, body)}
      ensures reply.Some? ==>
        Told(c, p, profile.model, codec, decoder, fits, w.upstream, reply.value, ConversationOf(state, request.agent))
      ensures Heard(c, Some(p), profile.model, codec, decoder, fits, w.upstream, ConversationOf(state, request.agent))
      ensures Stores(w) && w.upstream.Answering? && w.upstream.attempt.Some? ==>
        (Usable(c, p, profile.model, codec, decoder, fits, w.upstream) ==> reply.Some?)
      ensures state.session == old(state.session) && state.agents.Keys == old(state.agents).Keys
      ensures state.attempts == old(state.attempts) + Named(w.upstream)
      ensures forall agent :: agent != request.agent ==> ConversationOf(state, agent) == ConversationOf(old(state), agent)
      ensures c.input <= ConversationOf(state, request.agent).input
      ensures old(turns) <= turns
    {
      hide Preparation, Understood, Replied, Good, Past, Told, History, Calls, Usable, AllGood, AllPast;
      match w.upstream {
        case HttpError(attempt) =>
          if attempt.Some? {
            var _ := Attempted(attempt.value, w.second);
          }
          return None;
        case NoAnswer => return None;
        case Answering(attempt, raw) =>
          if attempt.None? { return None; }
          var saved := Attempted(attempt.value, w.second);
          if !saved { return None; }
          reply := Deliver(request, body, c, key, p, operation, w);
      }
    }

    /** The attempt the router named is remembered. */
    method Attempted(attempt: string, outcome: Saved) returns (ok: bool)
      requires Valid() && state.pending.Some? && state.pending == disk.pending
      modifies this`state, this`disk
      ensures Valid() && state == old(state).(attempts := old(state.attempts) + [attempt])
      ensures disk.pending == state.pending && ok == outcome.Stored?
    {
      state := state.(attempts := state.attempts + [attempt]);
      SameKeeps(turns, old(state), state);
      ok := Save(outcome);
    }

    /** The response is checked and recorded before it is handed over. */
    method Deliver(request: Request, ghost body: Body, c: Conversation, ghost key: string, p: Prepared, operation: string, w: World)
      returns (reply: Option<seq<Event>>)
      requires w.upstream.Answering? && w.upstream.attempt.Some?
      requires Valid() && state.pending == Some(operation) == disk.pending && c == ConversationOf(state, request.agent)
      requires request.agent.Some? ==> request.agent.value in state.agents
      requires Preparation(body, profile, c, key, wire) == Some(p) && History(body.messages) == Some(p.history)
      modifies this`state, this`disk, this`turns
      ensures Valid()
      ensures state.pending.None? ==> reply.Some? && disk == state
      ensures reply.None? ==> state.pending == Some(operation) && disk.pending == Some(operation)
      ensures reply.Some? ==> turns == old(turns) + {Turn(request.agent, body)}
      ensures reply.Some? ==>
        Told(c, p, profile.model, codec, decoder, fits, w.upstream, reply.value, ConversationOf(state, request.agent))
      ensures Heard(c, Some(p), profile.model, codec, decoder, fits, w.upstream, ConversationOf(state, request.agent))
      ensures w.third.Stored? && w.delivered ==>
        (Usable(c, p, profile.model, codec, decoder, fits, w.upstream) ==> reply.Some?)
      ensures state.session == old(state.session) && state.agents.Keys == old(state.agents).Keys
      ensures state.attempts == old(state.attempts)
      ensures forall agent :: agent != request.agent ==> ConversationOf(state, agent) == ConversationOf(old(state), agent)
      ensures c.input <= ConversationOf(state, request.agent).input
      ensures old(turns) <= turns
    {
      hide Preparation, Understood, Replied, Calls, AllGood, AllPast, History, ConversationOf, WithConversation;
      var response := CompletedResponse(w.upstream.raw, decoder);
      if response.None? { return None; }
      var translated := MessageEvents(response.value, profile.model, p.names, codec, fits);
      if translated.None? { return None; }
      if !(translated.value.calls !! Calls(c.input)) { return None; }
      TurnRecorded(turns, state, request.agent, body, profile, key, wire, p, response.value, codec, fits, translated.value);
      Placed(state, request.agent, Extended(p, response.value.output, translated.value));
      state := WithConversation(state, request.agent, Extended(p, response.value.output, translated.value));
      turns := turns + {Turn(request.agent, body)};
      assert Told(c, p, profile.model, codec, decoder, fits, w.upstream, translated.value.events,
                  ConversationOf(state, request.agent));
      var saved := Save(w.third);
      if !saved || !w.delivered { return None; }
      PendingKeeps(turns, state, None);
      PendingKeeps(turns, state, Some(operation));
      state := state.(pending := None);
      saved := Save(w.fourth);
      if !saved { state := state.(pending := Some(operation)); }
      reply := Some(translated.value.events);
    }
  }
}
