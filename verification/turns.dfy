/** What a turn sends upstream, told from its own messages: every block in order, what is new after
    what is on record, and an answer for every call that waits for one. */
module Turns {
  import opened Domain
  import opened Json
  import opened Translator
  import Spoken

  // ----------------------------------------------------------------------- the history

  /** The block may stand in a message of this role. */
  predicate Stands(role: Role, block: Block) {
    match block
    case TextBlock(_) => true
    case ToolUse(id, name, arguments) => role == Assistant && id != "" && name != "" && arguments.Object?
    case ToolResult(call, _, _) => role == User && call != ""
    case Thinking(_, signature) => role == Assistant && signature != ""
    case OtherBlock => false
  }

  predicate Wholesome(m: Message) {
    m.role.Some? && m.blocks != [] && forall i :: 0 <= i < |m.blocks| ==> Stands(m.role.value, m.blocks[i])
  }

  /** These entries are the message's blocks, under its role. */
  predicate Entered(entries: seq<Entry>, m: Message) {
    && m.role.Some? && |entries| == |m.blocks|
    && forall i :: 0 <= i < |entries| ==> entries[i].role == m.role.value && entries[i].block == m.blocks[i]
  }

  function Joint(pieces: seq<seq<Entry>>): seq<Entry> {
    if pieces == [] then [] else Joint(pieces[..|pieces| - 1]) + pieces[|pieces| - 1]
  }

  ghost predicate EnteredAll(pieces: seq<seq<Entry>>, messages: seq<Message>) {
    |pieces| == |messages| && forall i :: 0 <= i < |messages| ==> Entered(pieces[i], messages[i])
  }

  lemma WholesomeIsReadable(m: Message)
    ensures Readable(m) <==> Wholesome(m)
  {
    if m.role.Some? {
      forall i | 0 <= i < |m.blocks|
        ensures Admissible(m.role.value, m.blocks[i]) <==> Stands(m.role.value, m.blocks[i])
      {
      }
    }
    hide Admissible, Stands;
  }

  lemma {:induction false} FlattenedMeans(messages: seq<Message>) returns (pieces: seq<seq<Entry>>)
    requires forall i :: 0 <= i < |messages| ==> Readable(messages[i])
    ensures EnteredAll(pieces, messages) && Flattened(messages) == Joint(pieces)
  {
    pieces := [];
    if messages != [] {
      var before, last := messages[..|messages| - 1], messages[|messages| - 1];
      pieces := FlattenedMeans(before);
      assert Readable(last);
      var piece := Entries(last.role.value, last.blocks);
      assert Entered(piece, last);
      assert (pieces + [piece])[..|pieces|] == pieces;
      pieces := pieces + [piece];
      hide Readable, Entered;
    }
  }

  /** A history is read exactly when there is one and every message of it is wholesome; it is then
      the messages' blocks, in order. */
  lemma HistoryMeans(messages: seq<Message>) returns (pieces: seq<seq<Entry>>)
    ensures History(messages).Some? <==> messages != [] && forall i :: 0 <= i < |messages| ==> Wholesome(messages[i])
    ensures History(messages).Some? ==> EnteredAll(pieces, messages) && History(messages).value == Joint(pieces)
  {
    pieces := [];
    forall i | 0 <= i < |messages|
      ensures Readable(messages[i]) <==> Wholesome(messages[i])
    {
      WholesomeIsReadable(messages[i]);
    }
    hide Readable, Wholesome, EnteredAll;
    if History(messages).Some? { pieces := FlattenedMeans(messages); }
  }

  // ------------------------------------------------------------------- what is new of it

  /** Only texts, and results of the user's. */
  predicate Plainly(h: seq<Entry>) {
    forall i :: 0 <= i < |h| ==>
      (h[i].role == User && (h[i].block.TextBlock? || h[i].block.ToolResult?)) || (h[i].role == System && h[i].block.TextBlock?)
  }

  predicate Answers(e: Entry, call: string) { e.block.ToolResult? && e.block.call == call }

  lemma {:induction false} BeyondSkips(done: seq<Entry>, more: seq<Entry>, prior: map<string, Entry>)
    requires Plainly(done) && forall i :: 0 <= i < |done| && done[i].block.ToolResult? ==> done[i].block.call in prior
    ensures Beyond(done + more, |Texts(done, User)|, |Texts(done, System)|, prior) == Beyond(more, 0, 0, prior)
  {
    if done == [] {
      assert done + more == more;
    } else {
      BeyondSkips(done[1..], more, prior);
      assert (done + more)[1..] == done[1..] + more && (done + more)[0] == done[0];
    }
  }

  lemma {:induction false} BeyondKeeps(more: seq<Entry>, prior: map<string, Entry>)
    requires forall i :: 0 <= i < |more| && more[i].block.ToolResult? ==> more[i].block.call !in prior
    ensures Beyond(more, 0, 0, prior) == more
  {
    if more != [] {
      BeyondKeeps(more[1..], prior);
      assert more == [more[0]] + more[1..];
    }
  }

  lemma {:induction false} OthersJoin(a: seq<Entry>, b: seq<Entry>)
    ensures Others(a + b) == Others(a) + Others(b)
  {
    if a == [] {
      assert a + b == b;
    } else {
      OthersJoin(a[1..], b);
      assert (a + b)[1..] == a[1..] + b && (a + b)[0] == a[0];
      SeqsJoin(if a[0].role.Assistant? then [] else [a[0]], Others(a[1..]), Others(b));
    }
  }

  lemma {:induction false} AssistantsJoin(a: seq<Entry>, b: seq<Entry>)
    ensures Assistants(a + b) == Assistants(a) + Assistants(b)
  {
    if a == [] {
      assert a + b == b;
    } else {
      AssistantsJoin(a[1..], b);
      assert (a + b)[1..] == a[1..] + b && (a + b)[0] == a[0];
      SeqsJoin(if a[0].role.Assistant? then [a[0]] else [], Assistants(a[1..]), Assistants(b));
    }
  }

  lemma {:induction false} TextsJoin(a: seq<Entry>, b: seq<Entry>, role: Role)
    ensures Texts(a + b, role) == Texts(a, role) + Texts(b, role)
  {
    if a == [] {
      assert a + b == b;
    } else {
      TextsJoin(a[1..], b, role);
      assert (a + b)[1..] == a[1..] + b && (a + b)[0] == a[0];
      SeqsJoin(if a[0].role == role && a[0].block.TextBlock? then [a[0]] else [], Texts(a[1..], role), Texts(b, role));
    }
  }

  lemma {:induction false} PlainlyOthers(h: seq<Entry>)
    requires Plainly(h)
    ensures Others(h) == h && Assistants(h) == []
  {
    if h != [] {
      PlainlyOthers(h[1..]);
      assert h == [h[0]] + h[1..];
    }
  }

  lemma {:induction false} AnsweredMeans(h: seq<Entry>, call: string)
    ensures call in Answered(h) <==> exists i :: 0 <= i < |h| && Answers(h[i], call)
  {
    if h != [] {
      AnsweredMeans(h[1..], call);
      assert forall i :: 0 < i < |h| ==> h[i] == h[1..][i - 1];
    }
  }

  /** No call is answered twice. */
  ghost predicate AnswersOnce(h: seq<Entry>) {
    forall i, j :: 0 <= i < j < |h| && h[i].block.ToolResult? && h[j].block.ToolResult? ==> h[i].block.call != h[j].block.call
  }

  lemma {:induction false} TwiceMeans(h: seq<Entry>, seen: set<string>)
    ensures NoResultTwice(h, seen) <==>
      AnswersOnce(h) && forall i :: 0 <= i < |h| && h[i].block.ToolResult? ==> h[i].block.call !in seen
  {
    if h != [] {
      var rest := h[1..];
      TwiceMeans(rest, if h[0].block.ToolResult? then seen + {h[0].block.call} else seen);
      assert forall i :: 0 < i < |h| ==> h[i] == rest[i - 1];
      if AnswersOnce(rest) && h[0].block.ToolResult?
         && (forall i :: 0 <= i < |rest| && rest[i].block.ToolResult? ==> rest[i].block.call != h[0].block.call) {
        forall i, j | 0 <= i < j < |h| && h[i].block.ToolResult? && h[j].block.ToolResult?
          ensures h[i].block.call != h[j].block.call
        {
          assert h[j] == rest[j - 1] && (i > 0 ==> h[i] == rest[i - 1]);
        }
      }
    }
  }

  lemma {:induction false} ResultsMean(h: seq<Entry>)
    requires AnswersOnce(h)
    ensures forall i :: 0 <= i < |h| && h[i].block.ToolResult? ==> h[i].block.call in Results(h) && Results(h)[h[i].block.call] == h[i]
    ensures forall call :: call in Results(h) ==> exists i :: 0 <= i < |h| && Answers(h[i], call)
  {
    if h != [] {
      var rest, last := h[..|h| - 1], h[|h| - 1];
      assert forall i :: 0 <= i < |rest| ==> rest[i] == h[i];
      ResultsMean(rest);
      forall call | call in Results(h)
        ensures exists i :: 0 <= i < |h| && Answers(h[i], call)
      {
        if call in Results(rest) {
          var i :| 0 <= i < |rest| && Answers(rest[i], call);
          assert Answers(h[i], call);
        } else {
          assert Answers(h[|h| - 1], call);
        }
      }
    }
  }

  /** Results on record stay as they were, and new ones are for other calls. */
  lemma ResultsStand(prior: seq<Entry>, added: seq<Entry>)
    requires AnswersOnce(prior + added)
    ensures forall i :: 0 <= i < |added| && added[i].block.ToolResult? ==> added[i].block.call !in Results(prior)
    ensures forall i :: 0 <= i < |prior| && prior[i].block.ToolResult? ==> prior[i].block.call in Results(prior)
    ensures forall i :: 0 <= i < |prior + added| ==> SameResult((prior + added)[i], Results(prior))
    ensures Results(prior).Keys <= Answered(prior + added)
  {
    var users := prior + added;
    assert forall i :: 0 <= i < |prior| ==> users[i] == prior[i];
    assert forall i :: 0 <= i < |added| ==> users[|prior| + i] == added[i];
    assert AnswersOnce(prior);
    ResultsMean(prior);
    hide Results, Answered, AnswersOnce;
    forall i | 0 <= i < |added| && added[i].block.ToolResult?
      ensures added[i].block.call !in Results(prior)
    {
      NotOnRecord(prior, added, i);
    }
    forall call | call in Results(prior)
      ensures call in Answered(users)
    {
      var k :| 0 <= k < |prior| && Answers(prior[k], call);
      assert Answers(users[k], call);
      AnsweredMeans(users, call);
    }
    forall i | 0 <= i < |users|
      ensures SameResult(users[i], Results(prior))
    {
      if i >= |prior| { assert users[i] == added[i - |prior|]; }
    }
  }

  lemma NotOnRecord(prior: seq<Entry>, added: seq<Entry>, i: nat)
    requires AnswersOnce(prior + added) && AnswersOnce(prior) && i < |added| && added[i].block.ToolResult?
    ensures added[i].block.call !in Results(prior)
  {
    var users := prior + added;
    ResultsMean(prior);
    forall k | 0 <= k < |prior|
      ensures !Answers(prior[k], added[i].block.call)
    {
      assert users[k] == prior[k] && users[|prior| + i] == added[i];
    }
  }

  /** A history that repeats the one on record and goes on plainly continues it, and what is new of
      it is exactly what it goes on with. */
  lemma GoesOn(previous: seq<Entry>, added: seq<Entry>)
    requires Plainly(Others(previous)) && Plainly(added) && AnswersOnce(Others(previous) + added)
    ensures Continues(previous + added, previous) && New(previous + added, previous) == added
  {
    var prior := Others(previous);
    OthersJoin(previous, added);
    AssistantsJoin(previous, added);
    PlainlyOthers(added);
    TextsJoin(prior, added, User);
    TextsJoin(prior, added, System);
    TwiceMeans(prior + added, {});
    ResultsStand(prior, added);
    BeyondSkips(prior, added, Results(prior));
    BeyondKeeps(added, Results(prior));
    hide Texts, Others, Assistants, Results, Answered, NoResultTwice, Beyond, AnswersOnce, Plainly;
  }

  /** Every result on record is there again, unchanged. */
  ghost predicate KeepsResults(prior: seq<Entry>, users: seq<Entry>) {
    forall i :: 0 <= i < |prior| && prior[i].block.ToolResult? ==> prior[i] in users
  }

  lemma ResultsKept(prior: seq<Entry>, users: seq<Entry>)
    requires AnswersOnce(prior) && AnswersOnce(users)
    ensures KeepsResults(prior, users) <==>
      && (forall i :: 0 <= i < |users| ==> SameResult(users[i], Results(prior)))
      && Results(prior).Keys <= Answered(users)
  {
    ResultsMean(prior);
    forall call
      ensures call in Answered(users) <==> exists i :: 0 <= i < |users| && Answers(users[i], call)
    {
      AnsweredMeans(users, call);
    }
    hide Results, Answered;
    if KeepsResults(prior, users) {
      forall call | call in Results(prior)
        ensures call in Answered(users)
        ensures exists j :: 0 <= j < |users| && Answers(users[j], call) && users[j] == Results(prior)[call]
      {
        var i :| 0 <= i < |prior| && Answers(prior[i], call);
        assert prior[i] in users;
      }
    } else {
      var i :| 0 <= i < |prior| && prior[i].block.ToolResult? && prior[i] !in users;
      assert forall j :: 0 <= j < |users| && Answers(users[j], prior[i].block.call) ==> users[j] != prior[i];
    }
  }

  /** A history continues the one on record exactly when it repeats its assistant entries, its texts
      and its results, each unchanged, and answers no call twice. */
  lemma ContinuesMeans(h: seq<Entry>, previous: seq<Entry>)
    requires AnswersOnce(Others(previous))
    ensures var users, prior := Others(h), Others(previous);
      Continues(h, previous) <==>
        && Assistants(h) == Assistants(previous)
        && Texts(prior, User) <= Texts(users, User) && Texts(prior, System) <= Texts(users, System)
        && AnswersOnce(users) && KeepsResults(prior, users)
  {
    var users, prior := Others(h), Others(previous);
    TwiceMeans(users, {});
    if AnswersOnce(users) { ResultsKept(prior, users); }
    hide Others, Assistants, Texts, Results, Answered, NoResultTwice, AnswersOnce, KeepsResults;
  }

  function Rest(list: seq<Entry>, n: nat): seq<Entry> { if n <= |list| then list[n..] else [] }

  lemma TextsFirst(e: Entry, list: seq<Entry>, role: Role)
    ensures Texts([e] + list, role) == if e.role == role && e.block.TextBlock? then [e] + Texts(list, role) else Texts(list, role)
  {
    assert ([e] + list)[1..] == list;
  }

  lemma RestFirst(e: Entry, list: seq<Entry>, n: nat)
    ensures Rest([e] + list, n) == if n > 0 then Rest(list, n - 1) else [e] + list
    ensures Rest(list, 0) == list
  {
  }

  /** The first entry is skipped while there are texts to skip, and kept afterwards. */
  lemma BeyondFirst(users: seq<Entry>, user: nat, system: nat, prior: map<string, Entry>) returns (u: nat, s: nat, kept: bool)
    requires Plainly(users) && users != []
    ensures var more := Beyond(users[1..], u, s, prior);
      Beyond(users, user, system, prior) == if kept then [users[0]] + more else more
    ensures users[0].block.ToolResult? ==> u == user && s == system
    ensures users[0].block.TextBlock? && users[0].role == User ==>
      s == system && (kept <==> user == 0) && u == if user > 0 then user - 1 else 0
    ensures users[0].block.TextBlock? && users[0].role == System ==>
      u == user && (kept <==> system == 0) && s == if system > 0 then system - 1 else 0
  {
    var e := users[0];
    u, s := user, system;
    if e.block.ToolResult? {
      kept := e.block.call !in prior;
    } else if e.role == System {
      kept := system == 0;
      s := if system > 0 then system - 1 else 0;
    } else {
      kept := user == 0;
      u := if user > 0 then user - 1 else 0;
    }
  }

  lemma {:induction false} BeyondTexts(users: seq<Entry>, user: nat, system: nat, prior: map<string, Entry>)
    requires Plainly(users)
    ensures Texts(Beyond(users, user, system, prior), User) == Rest(Texts(users, User), user)
    ensures Texts(Beyond(users, user, system, prior), System) == Rest(Texts(users, System), system)
  {
    if users != [] {
      var e, rest := users[0], users[1..];
      var u, s, kept := BeyondFirst(users, user, system, prior);
      BeyondTexts(rest, u, s, prior);
      var more := Beyond(rest, u, s, prior);
      assert users == [e] + rest;
      hide Beyond, Texts, Rest;
      TextsFirst(e, rest, User);
      TextsFirst(e, rest, System);
      TextsFirst(e, more, User);
      TextsFirst(e, more, System);
      RestFirst(e, Texts(rest, User), user);
      RestFirst(e, Texts(rest, System), system);
    }
  }

  lemma {:induction false} BeyondResults(users: seq<Entry>, user: nat, system: nat, prior: map<string, Entry>, e: Entry)
    requires e.block.ToolResult?
    ensures e in Beyond(users, user, system, prior) <==> e in users && e.block.call !in prior
  {
    if users != [] {
      var first, rest := users[0], users[1..];
      var u := if !first.block.ToolResult? && !first.role.System? && user > 0 then user - 1 else user;
      var s := if !first.block.ToolResult? && first.role.System? && system > 0 then system - 1 else system;
      BeyondResults(rest, u, s, prior, e);
      assert users == [first] + rest;
    }
  }

  lemma {:induction false} FlattenedStands(messages: seq<Message>)
    requires forall i :: 0 <= i < |messages| ==> Readable(messages[i])
    ensures forall i :: 0 <= i < |Flattened(messages)| ==> Stands(Flattened(messages)[i].role, Flattened(messages)[i].block)
  {
    if messages != [] {
      FlattenedStands(messages[..|messages| - 1]);
      assert Readable(messages[|messages| - 1]);
    }
  }

  lemma {:induction false} OthersStand(h: seq<Entry>)
    requires forall i :: 0 <= i < |h| ==> Stands(h[i].role, h[i].block)
    ensures Plainly(Others(h))
  {
    if h != [] {
      OthersStand(h[1..]);
      assert Stands(h[0].role, h[0].block);
    }
  }

  /** Apart from the assistant's entries a history that is read holds only texts and results. */
  lemma ReadIsPlain(messages: seq<Message>)
    requires History(messages).Some?
    ensures Plainly(Others(History(messages).value))
  {
    FlattenedStands(messages);
    OthersStand(Flattened(messages));
  }

  /** What is new of it is the texts after those on record, in order, and the results for calls that
      had none. */
  lemma NewMeans(h: seq<Entry>, previous: seq<Entry>)
    requires Plainly(Others(h)) && AnswersOnce(Others(previous)) && Continues(h, previous)
    ensures var users, prior, added := Others(h), Others(previous), New(h, previous);
      && Texts(users, User) == Texts(prior, User) + Texts(added, User)
      && Texts(users, System) == Texts(prior, System) + Texts(added, System)
      && forall e: Entry :: e.block.ToolResult? ==>
           (e in added <==> e in users && forall i :: 0 <= i < |prior| ==> !Answers(prior[i], e.block.call))
  {
    var users, prior := Others(h), Others(previous);
    BeyondTexts(users, |Texts(prior, User)|, |Texts(prior, System)|, Results(prior));
    ResultsMean(prior);
    forall e: Entry | e.block.ToolResult?
      ensures e in New(h, previous) <==> e in users && e.block.call !in Results(prior)
    {
      BeyondResults(users, |Texts(prior, User)|, |Texts(prior, System)|, Results(prior), e);
    }
    hide Others, Texts, Results, Beyond, Assistants, NoResultTwice, Answered, AnswersOnce;
  }

  // ---------------------------------------------------------------- what a turn asks for

  /** What the bound intent leaves open, and nothing more. */
  predicate Settles(body: Body, profile: Profile) {
    var effort := profile.effort.Some? && profile.effort.value != "";
    && body.model == profile.model && body.stream && body.maxTokens > 0 && profile.defaultBudget
    && (body.thinking.Some? ==> effort && body.thinking.value == Object(map["type" := Text("adaptive")]))
    && (body.outputConfig.Some? ==> effort && body.outputConfig.value == Object(map["effort" := Text(profile.effort.value)]))
    && (body.contextManagement.Some? ==>
          body.contextManagement.value ==
            Object(map["edits" := List([Object(map["type" := Text("clear_thinking_20251015"), "keep" := Text("all")])])]))
  }

  /** The tools are named, each once, and described by objects. */
  predicate Distinct(tools: seq<Tool>) {
    && (forall i :: 0 <= i < |tools| ==> tools[i].name != "" && tools[i].schema.Object?)
    && forall i, j :: 0 <= i < j < |tools| ==> tools[i].name != tools[j].name
  }

  predicate Offered(tools: seq<Tool>, name: string) { exists i :: 0 <= i < |tools| && tools[i].name == name }

  /** Any tool, no tool, or one that is offered. */
  predicate Chooses(choice: Choice, tools: seq<Tool>) {
    || ((choice.kind == "auto" || choice.kind == "none") && choice.name.None?)
    || (choice.kind == "any" && choice.name.None? && tools != [])
    || (choice.kind == "tool" && choice.name.Some? && Offered(tools, choice.name.value))
  }

  lemma {:induction false} NamesMean(tools: seq<Tool>, name: string)
    ensures name in Names(tools) <==> Offered(tools, name)
  {
    if tools != [] {
      var before := tools[..|tools| - 1];
      NamesMean(before, name);
      assert forall i :: 0 <= i < |before| ==> before[i] == tools[i];
    }
  }

  lemma {:induction false} ToolsMean(tools: seq<Tool>)
    ensures ToolsFit(tools) <==> Distinct(tools)
  {
    if tools != [] {
      var before, last := tools[..|tools| - 1], tools[|tools| - 1];
      ToolsMean(before);
      NamesMean(before, last.name);
      assert forall i :: 0 <= i < |before| ==> before[i] == tools[i];
    }
  }

  lemma ChoiceMeans(choice: Choice, tools: seq<Tool>)
    ensures ChoiceFits(choice, tools) <==> Chooses(choice, tools)
  {
    if choice.name.Some? { NamesMean(tools, choice.name.value); }
    hide Names;
  }

  /** The item carries the entry upstream: a text under its role, a result with its call, its content
      and whether it is an error. */
  predicate Carries(item: Item, e: Entry) {
    match e.block
    case TextBlock(text) => item == Input(e.role, text)
    case ToolResult(call, content, isError) => item == Output(call, content, isError)
    case _ => false
  }

  lemma {:induction false} TranslatedMeans(added: seq<Entry>)
    requires Supported(added)
    ensures |Translated(added)| == |added| && forall i :: 0 <= i < |added| ==> Carries(Translated(added)[i], added[i])
  {
    if added != [] {
      var before := added[..|added| - 1];
      assert Supported(before);
      TranslatedMeans(before);
    }
  }

  /** The recorded input, then one item for each entry that is new: in order, as it was given. */
  ghost predicate Sends(o: Outgoing, c: Conversation, added: seq<Entry>) {
    && |o.input| == |c.input| + |added| && c.input <= o.input
    && forall i :: 0 <= i < |added| ==> Carries(o.input[|c.input| + i], added[i])
  }

  lemma SendsTranslated(o: Outgoing, c: Conversation, added: seq<Entry>)
    requires Supported(added) && o.input == c.input + Translated(added)
    ensures Sends(o, c, added)
  {
    TranslatedMeans(added);
    hide Translated, Carries;
    assert forall i :: 0 <= i < |added| ==> o.input[|c.input| + i] == Translated(added)[i];
  }

  /** These calls are answered and no others. */
  ghost predicate AnswersAll(added: seq<Entry>, calls: set<string>) {
    forall call :: call in calls <==> exists i :: 0 <= i < |added| && Answers(added[i], call)
  }

  lemma AnsweredAll(added: seq<Entry>, calls: set<string>)
    ensures Answered(added) == calls <==> AnswersAll(added, calls)
  {
    forall call
      ensures call in Answered(added) <==> exists i :: 0 <= i < |added| && Answers(added[i], call)
    {
      AnsweredMeans(added, call);
    }
    hide Answered, Answers;
  }

  lemma NewOnce(h: seq<Entry>, previous: seq<Entry>)
    requires Continues(h, previous)
    ensures AnswersOnce(New(h, previous))
  {
    var prior := Others(previous);
    BeyondShrinks(Others(h), |Texts(prior, User)|, |Texts(prior, System)|, Results(prior), {});
    TwiceMeans(New(h, previous), {});
    hide Beyond, Texts, Results, Others, Assistants, Answered, NoResultTwice, AnswersOnce;
  }

  lemma SettlesMeans(body: Body, profile: Profile)
    ensures Plain(body, profile) <==> Settles(body, profile)
  {
  }

  /** A turn that is accepted asks only what the bound intent leaves open, and sends the recorded
      input and what is new, which between them answers exactly the calls that wait, each once. */
  lemma TurnSends(body: Body, profile: Profile, c: Conversation, key: string, wire: Outgoing -> bool) returns (added: seq<Entry>)
    requires Preparation(body, profile, c, key, wire).Some?
    ensures var o := Preparation(body, profile, c, key, wire).value.outgoing;
      && Settles(body, profile) && Distinct(body.tools) && Chooses(body.choice, body.tools) && wire(o)
      && o.profile == profile && o.tools == body.tools && o.choice == body.choice && o.cacheKey == key
      && Spoken.Paragraphs(o.instructions, body.system)
      && (c.instructions.Some? ==> c.instructions.value == o.instructions)
      && Sends(o, c, added) && AnswersOnce(added) && AnswersAll(added, c.pendingTools)
    ensures exists i :: 0 <= i < |added| && added[i].role == User
    ensures History(body.messages) == Some(Preparation(body, profile, c, key, wire).value.history)
  {
    hide Plain, Settles, History, Continues, New, Translated, ToolsFit, ChoiceFits, Distinct, Chooses, Joined, Names,
         Answered, AnswersOnce, AnswersAll, Spoken.Paragraphs, Sends, Supported;
    var h := History(body.messages).value;
    added := New(h, c.history);
    SettlesMeans(body, profile);
    ToolsMean(body.tools);
    ChoiceMeans(body.choice, body.tools);
    Spoken.JoinedParagraphs(body.system);
    SendsTranslated(Preparation(body, profile, c, key, wire).value.outgoing, c, added);
    NewOnce(h, c.history);
    AnsweredAll(added, c.pendingTools);
  }

  /** A body that repeats what is on record, asks something new, and answers each waiting call once is
      accepted, and sends exactly that, unless it is too large. */
  lemma TurnIsAccepted(body: Body, profile: Profile, c: Conversation, key: string, wire: Outgoing -> bool, added: seq<Entry>)
    requires Settles(body, profile) && Distinct(body.tools) && Chooses(body.choice, body.tools)
    requires c.instructions.None? || Spoken.Paragraphs(c.instructions.value, body.system)
    requires History(body.messages) == Some(c.history + added)
    requires Plainly(Others(c.history)) && Plainly(added) && AnswersOnce(Others(c.history) + added)
    requires exists i :: 0 <= i < |added| && added[i].role == User
    requires AnswersAll(added, c.pendingTools)
    ensures Preparation(body, profile, c, key, wire).None? ==> exists o: Outgoing :: !wire(o) && Sends(o, c, added)
    ensures Preparation(body, profile, c, key, wire).Some? ==>
      Sends(Preparation(body, profile, c, key, wire).value.outgoing, c, added)
  {
    assert Supported(added);
    hide Plain, Settles, History, Continues, New, Translated, ToolsFit, ChoiceFits, Distinct, Chooses, Joined, Names,
         Answered, AnswersOnce, AnswersAll, Spoken.Paragraphs, Sends, Supported, Plainly, Others;
    GoesOn(c.history, added);
    SettlesMeans(body, profile);
    ToolsMean(body.tools);
    ChoiceMeans(body.choice, body.tools);
    if c.instructions.Some? { OneReading(c.instructions.value, Joined(body.system), body.system); }
    AnsweredAll(added, c.pendingTools);
    var o := Outgoing(profile, Joined(body.system), c.input + Translated(added), body.tools, body.choice, key);
    SendsTranslated(o, c, added);
  }

  lemma {:induction false} NoOthers(reply: seq<Entry>)
    requires forall i :: 0 <= i < |reply| ==> reply[i].role.Assistant?
    ensures Others(reply) == []
  {
    if reply != [] { NoOthers(reply[1..]); }
  }

  /** What an accepted turn leaves on record can be gone on from. */
  lemma RecordIsReady(body: Body, profile: Profile, c: Conversation, key: string, wire: Outgoing -> bool, reply: seq<Entry>)
    requires Preparation(body, profile, c, key, wire).Some?
    requires forall i :: 0 <= i < |reply| ==> reply[i].role.Assistant?
    ensures var kept := Others(Preparation(body, profile, c, key, wire).value.history + reply); Plainly(kept) && AnswersOnce(kept)
  {
    hide Plain, New, Translated, ToolsFit, ChoiceFits, Joined, Names, Supported, NoResultTwice, Assistants, Texts, Results, Answered,
         History, AnswersOnce, Others;
    var h := Preparation(body, profile, c, key, wire).value.history;
    ReadIsPlain(body.messages);
    OthersJoin(h, reply);
    NoOthers(reply);
    assert Others(h) + [] == Others(h);
    TwiceMeans(Others(h), {});
    assert Continues(h, c.history);
  }

  lemma {:induction false} OneReading(a: string, b: string, texts: seq<string>)
    requires Spoken.Paragraphs(a, texts) && b == Joined(texts)
    ensures a == b
  {
    if |texts| > 1 {
      OneReading(a[|texts[0]| + 2..], Joined(texts[1..]), texts[1..]);
      assert a == a[..|texts[0]| + 2] + a[|texts[0]| + 2..];
    }
  }
}
