/** One request as the router executes it is a run of the system: what holds over every run
    holds of it. */
module Refinement {
  import opened Domain
  import opened Router
  import Liveness
  import Safety
  import Steps
  import System
  import T = Tables

  /** One execution and its attempt, as far as the rest of the request depends on them. */
  datatype Spot = Spot(
    e: System.ExecId, id: AttemptId, phase: System.Phase, rows: T.Rows, chunks: seq<Bytes>, at: nat, monotone: bool)

  ghost predicate At(n: System.System, p: Spot) {
    && n.up && n.rows == p.rows && n.clock == p.at && n.hist.monotone == p.monotone
    && p.e in n.execs && n.execs[p.e].phase == p.phase && n.execs[p.e].offered == p.chunks && n.execs[p.e].connected
    && p.id !in n.hist.upstream
  }

  // ------------------------------------------------------------------- running on

  lemma RunThen(n: System.System, ev: System.Event, rest: seq<System.Event>)
    ensures System.Run(n, [ev] + rest) == System.Run(System.Step(n, ev), rest)
  {
    Liveness.RunSplits(n, [ev], rest);
    hide System.Step;
    assert [ev][..0] == [];
    assert System.Run(n, [ev]) == System.Step(System.Run(n, []), ev);
  }

  /** Events that lead from one spot to another. */
  ghost predicate Leads(n: System.System, events: seq<System.Event>, p: Spot) { At(System.Run(n, events), p) }

  lemma LeadsThen(n: System.System, ev: System.Event, rest: seq<System.Event>, p: Spot)
    requires Leads(System.Step(n, ev), rest, p)
    ensures Leads(n, [ev] + rest, p)
  {
    RunThen(n, ev, rest);
    hide At, System.Step, System.Run;
  }

  lemma LeadsNowhere(n: System.System, p: Spot)
    requires At(n, p)
    ensures Leads(n, [], p)
  {
    hide At;
  }

  // ----------------------------------------------------------------------- steps

  lemma Ticks(n: System.System, p: Spot, to: nat)
    requires At(n, p)
    ensures At(System.Step(n, System.Tick(to)), p.(at := to, monotone := p.monotone && p.at <= to))
  {
  }

  lemma Loads(n: System.System, p: Spot, loaded: bool)
    requires At(n, p) && p.phase == System.Prepared(p.id)
    ensures At(System.Step(n, System.LoadSecret(p.e, loaded)),
               p.(phase := if loaded then System.Loaded(p.id) else System.Unloaded(p.id)))
  {
  }

  lemma Dispatches(n: System.System, p: Spot, t: T.Rows, a: Attempt, began: Timestamp, reply: System.Reply)
    requires At(n, p) && p.phase == System.Loaded(p.id) && a.id == p.id && Holds(t, a) && 0 <= began <= p.at
    requires p.rows == Standing(t, a, AttemptState.Reserved, began)
    ensures At(System.Step(n, System.Dispatch(p.e, reply)), p.(
      phase := if reply.Delivered? then System.Ready(p.id) else System.Dropping(p.id, Settlement.Uncertain, p.at),
      rows := if reply.Refused? then p.rows else Standing(t, a, AttemptState.Dispatching, p.at)))
  {
    AdvanceStands(t, a, began, AttemptState.Reserved, AttemptState.Dispatching, p.at);
    hide T.Advance, Standing;
  }

  lemma Sends(n: System.System, p: Spot)
    requires At(n, p) && p.phase == System.Ready(p.id)
    ensures At(System.Step(n, System.Invoke(p.e)), p.(phase := System.Sending(p.id)))
  {
  }

  lemma FailsSending(n: System.System, p: Spot, certainty: DispatchCertainty)
    requires At(n, p) && p.phase == System.Sending(p.id)
    ensures At(System.Step(n, System.FailSend(p.e, certainty)), p.(phase := System.SendFailed(p.id, certainty)))
  {
  }

  lemma Responds(n: System.System, p: Spot)
    requires At(n, p) && p.phase == System.Sending(p.id)
    ensures At(System.Step(n, System.Respond(p.e)), p.(phase := System.Replied(p.id)))
  {
  }

  lemma Streams(n: System.System, p: Spot, t: T.Rows, a: Attempt, began: Timestamp, reply: System.Reply)
    requires At(n, p) && p.phase == System.Replied(p.id) && a.id == p.id && Holds(t, a) && 0 <= began <= p.at
    requires p.rows == Standing(t, a, AttemptState.Dispatching, began)
    ensures At(System.Step(n, System.Stream(p.e, reply)), p.(
      phase := if reply.Delivered? then System.Draining(p.id) else System.Dropping(p.id, Settlement.Uncertain, p.at),
      rows := if reply.Refused? then p.rows else Standing(t, a, AttemptState.Streaming, p.at)))
  {
    AdvanceStands(t, a, began, AttemptState.Dispatching, AttemptState.Streaming, p.at);
    hide T.Advance, Standing;
  }

  lemma Yields(n: System.System, p: Spot, item: System.Item)
    requires At(n, p) && p.phase == System.Draining(p.id)
    ensures At(System.Step(n, System.Yield(p.e, item)), match item
      case Data(bytes) => p.(chunks := p.chunks + [bytes])
      case Terminal(bytes, outcome) =>
        p.(phase := if outcome.Evidence() then System.Proven(p.id, outcome, Some(bytes))
                    else System.Dropping(p.id, Settlement.Uncertain, p.at))
      case Finished(outcome) =>
        p.(phase := if outcome.Evidence() then System.Proven(p.id, outcome, None)
                    else System.Dropping(p.id, Settlement.Uncertain, p.at))
      case _ => p.(phase := System.Interrupted(p.id)))
  {
  }

  /** What the caller is handed once the settlement is known stored. */
  function Last(phase: System.Phase): seq<Bytes> {
    if phase.Proven? && phase.last.Some? then [phase.last.value] else []
  }

  lemma Finishes(n: System.System, p: Spot, t: T.Rows, a: Attempt, state: AttemptState, began: Timestamp, reply: System.Reply)
    requires At(n, p) && p.phase.Settling() && p.phase.id == p.id == a.id && Holds(t, a) && 0 <= began <= p.at
    requires p.rows == Standing(t, a, state, began)
    requires var next := p.phase.Verdict().State(); SettledState(state, p.phase.Verdict()) == next && next != state
    ensures At(System.Step(n, System.Finish(p.e, reply)), p.(
      phase := if reply.Delivered? then System.Ended else System.Dropping(p.id, p.phase.OnDrop(), p.at),
      rows := if reply.Refused? then p.rows else Standing(t, a, p.phase.Verdict().State(), p.at),
      chunks := if reply.Delivered? then p.chunks + Last(p.phase) else p.chunks))
  {
    SettleStands(t, a, began, state, p.phase.Verdict(), p.at);
    FinishSteps(n, p, reply);
    if reply.Delivered? {
      Steps.SettlementShape(n, p.e, n.execs[p.e]);
    } else {
      Steps.FailureShape(n, p.e, n.execs[p.e], reply);
    }
    hide T.Settle, Standing, System.Step, System.SettleExec;
    assert p.chunks + [] == p.chunks;
  }

  lemma FinishSteps(n: System.System, p: Spot, reply: System.Reply)
    requires At(n, p) && p.phase.Settling()
    ensures System.Step(n, System.Finish(p.e, reply)) == System.SettleExec(n, p.e, n.execs[p.e], reply)
  {
    hide System.SettleExec;
  }

  lemma Drops(n: System.System, p: Spot, t: T.Rows, a: Attempt, state: AttemptState, began: Timestamp)
    requires At(n, p) && p.phase.Dropping? && p.phase.id == p.id == a.id && Holds(t, a) && 0 <= began <= p.phase.at
    requires p.rows == Standing(t, a, state, began)
    ensures var next := SettledState(state, p.phase.outcome);
      At(System.Step(n, System.Drop(p.e, System.Delivered)), p.(
        phase := System.Ended, rows := Standing(t, a, next, if next == state then began else p.phase.at)))
  {
    SettleStands(t, a, began, state, p.phase.outcome, p.phase.at);
    hide T.Settle, Standing;
  }

  // ------------------------------------------------------------------ to the end

  /** The row after its guard is gone: stored as decided, or as the drop leaves it. */
  function Left(state: AttemptState, phase: System.Phase, reply: System.Reply): AttemptState
    requires phase.Owns().Some? && !phase.Dropping?
  {
    if reply.Refused? then SettledState(state, phase.OnDrop()) else phase.Verdict().State()
  }

  /** Finish, and if that is not known stored, drop. */
  lemma Closes(n: System.System, p: Spot, t: T.Rows, a: Attempt, state: AttemptState, began: Timestamp, reply: System.Reply)
    returns (rest: seq<System.Event>)
    requires At(n, p) && p.phase.Settling() && p.phase.id == p.id == a.id && Holds(t, a) && 0 <= began <= p.at
    requires p.rows == Standing(t, a, state, began)
    requires var next := p.phase.Verdict().State(); SettledState(state, p.phase.Verdict()) == next && next != state
    requires SettledState(state, p.phase.OnDrop()) != state
    requires SettledState(p.phase.Verdict().State(), p.phase.OnDrop()) == p.phase.Verdict().State()
    ensures Leads(n, rest, p.(
      phase := System.Ended, rows := Standing(t, a, Left(state, p.phase, reply), p.at),
      chunks := if reply.Delivered? then p.chunks + Last(p.phase) else p.chunks))
  {
    hide At, Leads, Standing, System.Step, SettledState, Last;
    var ev := System.Finish(p.e, reply);
    Finishes(n, p, t, a, state, began, reply);
    var next := System.Step(n, ev);
    if reply.Delivered? {
      rest := [];
      LeadsNowhere(next, p.(phase := System.Ended, rows := Standing(t, a, p.phase.Verdict().State(), p.at),
                            chunks := p.chunks + Last(p.phase)));
    } else {
      rest := [System.Drop(p.e, System.Delivered)];
      var q := p.(phase := System.Dropping(p.id, p.phase.OnDrop(), p.at),
                  rows := if reply.Refused? then p.rows else Standing(t, a, p.phase.Verdict().State(), p.at));
      if reply.Refused? {
        Dropped(next, q, t, a, state, began);
      } else {
        Dropped(next, q, t, a, p.phase.Verdict().State(), p.at);
      }
    }
    LeadsThen(n, ev, rest, p.(
      phase := System.Ended, rows := Standing(t, a, Left(state, p.phase, reply), p.at),
      chunks := if reply.Delivered? then p.chunks + Last(p.phase) else p.chunks));
    rest := [ev] + rest;
  }

  lemma Dropped(n: System.System, p: Spot, t: T.Rows, a: Attempt, state: AttemptState, began: Timestamp)
    requires At(n, p) && p.phase.Dropping? && p.phase.id == p.id == a.id && Holds(t, a) && 0 <= began <= p.phase.at
    requires p.rows == Standing(t, a, state, began)
    ensures var next := SettledState(state, p.phase.outcome);
      Leads(n, [System.Drop(p.e, System.Delivered)], p.(
        phase := System.Ended, rows := Standing(t, a, next, if next == state then began else p.phase.at)))
  {
    hide At, Leads, Standing, System.Step, SettledState;
    var ev, next := System.Drop(p.e, System.Delivered), SettledState(state, p.phase.outcome);
    var q := p.(phase := System.Ended, rows := Standing(t, a, next, if next == state then began else p.phase.at));
    Drops(n, p, t, a, state, began);
    LeadsNowhere(System.Step(n, ev), q);
    LeadsThen(n, ev, [], q);
    assert [ev] + [] == [ev];
  }

  /** Where a drain ends. */
  function Drained(p: Spot, t: T.Rows, a: Attempt, items: seq<System.Item>, finish: System.Reply): Spot {
    p.(phase := System.Ended, chunks := p.chunks + Handed(items, finish.Delivered?),
       rows := Standing(t, a, if finish.Refused? then AttemptState.Uncertain else Verdict(items).State(), p.at))
  }

  ghost predicate Draining(n: System.System, p: Spot, t: T.Rows, a: Attempt, began: Timestamp) {
    && At(n, p) && p.phase == System.Draining(p.id) && p.id == a.id && Holds(t, a) && 0 <= began <= p.at
    && p.rows == Standing(t, a, AttemptState.Streaming, began)
  }

  lemma DrainsProof(n: System.System, p: Spot, t: T.Rows, a: Attempt, began: Timestamp, outcome: Settlement,
      last: Option<Bytes>, finish: System.Reply)
    returns (rest: seq<System.Event>)
    requires At(n, p.(phase := System.Proven(p.id, outcome, last))) && p.id == a.id && Holds(t, a) && 0 <= began <= p.at
    requires p.rows == Standing(t, a, AttemptState.Streaming, began) && outcome.Evidence()
    ensures Leads(n, rest, p.(
      phase := System.Ended,
      rows := Standing(t, a, if finish.Refused? then AttemptState.Uncertain else outcome.State(), p.at),
      chunks := p.chunks + if last.Some? && finish.Delivered? then [last.value] else []))
  {
    hide At, Leads, Standing;
    rest := Closes(n, p.(phase := System.Proven(p.id, outcome, last)), t, a, AttemptState.Streaming, began, finish);
    assert p.chunks + [] == p.chunks;
  }

  /** Nothing decisive, or an item that proves nothing. */
  lemma DrainsDoubt(n: System.System, p: Spot, t: T.Rows, a: Attempt, began: Timestamp, finish: System.Reply)
    returns (rest: seq<System.Event>)
    requires At(n, p) && p.id == a.id && Holds(t, a) && 0 <= began <= p.at
    requires p.phase == System.Interrupted(p.id) || p.phase == System.Dropping(p.id, Settlement.Uncertain, p.at)
    requires p.rows == Standing(t, a, AttemptState.Streaming, began)
    ensures Leads(n, rest, p.(phase := System.Ended, rows := Standing(t, a, AttemptState.Uncertain, p.at)))
  {
    hide At, Leads, Standing;
    if p.phase.Dropping? {
      Dropped(n, p, t, a, AttemptState.Streaming, began);
      rest := [System.Drop(p.e, System.Delivered)];
    } else {
      rest := Closes(n, p, t, a, AttemptState.Streaming, began, finish);
      assert p.chunks + [] == p.chunks;
    }
  }

  lemma DrainsDecided(n: System.System, p: Spot, t: T.Rows, a: Attempt, began: Timestamp, items: seq<System.Item>,
      finish: System.Reply)
    returns (rest: seq<System.Event>)
    requires Draining(n, p, t, a, began) && items != [] && !items[0].Data?
    ensures Leads(System.Step(n, System.Yield(p.e, items[0])), rest, Drained(p, t, a, items, finish))
  {
    hide At, Leads, Standing, System.Step;
    var next := System.Step(n, System.Yield(p.e, items[0]));
    Yields(n, p, items[0]);
    assert p.chunks + [] == p.chunks;
    match items[0] {
      case Terminal(bytes, outcome) =>
        if outcome.Evidence() {
          rest := DrainsProof(next, p, t, a, began, outcome, Some(bytes), finish);
        } else {
          rest := DrainsDoubt(next, p.(phase := System.Dropping(p.id, Settlement.Uncertain, p.at)), t, a, began, finish);
        }
      case Finished(outcome) =>
        if outcome.Evidence() {
          rest := DrainsProof(next, p, t, a, began, outcome, None, finish);
        } else {
          rest := DrainsDoubt(next, p.(phase := System.Dropping(p.id, Settlement.Uncertain, p.at)), t, a, began, finish);
        }
      case _ =>
        rest := DrainsDoubt(next, p.(phase := System.Interrupted(p.id)), t, a, began, finish);
    }
  }

  lemma DrainsEof(n: System.System, p: Spot, t: T.Rows, a: Attempt, began: Timestamp, finish: System.Reply)
    returns (rest: seq<System.Event>)
    requires Draining(n, p, t, a, began)
    ensures Leads(System.Step(n, System.Yield(p.e, System.Eof)), rest, Drained(p, t, a, [], finish))
  {
    hide At, Leads, Standing, System.Step;
    Yields(n, p, System.Eof);
    assert p.chunks + [] == p.chunks;
    rest := DrainsDoubt(System.Step(n, System.Yield(p.e, System.Eof)), p.(phase := System.Interrupted(p.id)), t, a, began, finish);
  }

  lemma DrainsData(n: System.System, p: Spot, t: T.Rows, a: Attempt, began: Timestamp, items: seq<System.Item>,
      finish: System.Reply)
    requires Draining(n, p, t, a, began) && items != [] && items[0].Data?
    ensures var q := p.(chunks := p.chunks + [items[0].bytes]);
      && Draining(System.Step(n, System.Yield(p.e, items[0])), q, t, a, began)
      && Drained(q, t, a, items[1..], finish) == Drained(p, t, a, items, finish)
  {
    hide At, Standing, System.Step;
    Yields(n, p, items[0]);
    assert p.chunks + [items[0].bytes] + Handed(items[1..], finish.Delivered?) == p.chunks + Handed(items, finish.Delivered?);
  }

  /** The drain: every item up to the first decisive one, then the end. */
  lemma {:induction false} Drains(n: System.System, p: Spot, t: T.Rows, a: Attempt, began: Timestamp,
      items: seq<System.Item>, finish: System.Reply)
    returns (rest: seq<System.Event>)
    requires Draining(n, p, t, a, began)
    ensures Leads(n, rest, Drained(p, t, a, items, finish))
    decreases |items|
  {
    hide Leads, System.Step, Drained, Draining, Handed, Verdict;
    var item := if items == [] then System.Eof else items[0];
    var ev := System.Yield(p.e, item);
    if items == [] {
      rest := DrainsEof(n, p, t, a, began, finish);
    } else if item.Data? {
      DrainsData(n, p, t, a, began, items, finish);
      rest := Drains(System.Step(n, ev), p.(chunks := p.chunks + [item.bytes]), t, a, began, items[1..], finish);
    } else {
      rest := DrainsDecided(n, p, t, a, began, items, finish);
    }
    LeadsThen(n, ev, rest, Drained(p, t, a, items, finish));
    rest := [ev] + rest;
  }

  /** What the caller of the whole request is handed. */
  function Given(loaded: bool, sent: Sent, replies: Replies): seq<Bytes> {
    if loaded && sent.Streamed? && replies.dispatch.Delivered? && replies.stream.Delivered?
    then Handed(sent.items, replies.finish.Delivered?) else []
  }

  function Goal(p: Spot, t: T.Rows, a: Attempt, ending: AttemptState, chunks: seq<Bytes>, at: nat): Spot {
    p.(phase := System.Ended, rows := Standing(t, a, ending, at), chunks := p.chunks + chunks, at := at)
  }

  /** Two events on the way. */
  lemma LeadsTwice(n: System.System, first: System.Event, second: System.Event, rest: seq<System.Event>, p: Spot)
    requires Leads(System.Step(System.Step(n, first), second), rest, p)
    ensures Leads(n, [first, second] + rest, p)
  {
    hide At, Leads, System.Step;
    LeadsThen(System.Step(n, first), second, rest, p);
    LeadsThen(n, first, [second] + rest, p);
    assert [first] + ([second] + rest) == [first, second] + rest;
  }

  lemma Unloads(n: System.System, p: Spot, t: T.Rows, a: Attempt, reply: System.Reply, at: nat)
    returns (rest: seq<System.Event>)
    requires At(n, p) && p.phase == System.Prepared(p.id) && p.id == a.id && Holds(t, a) && p.at <= at
    requires p.rows == Standing(t, a, AttemptState.Reserved, p.at)
    ensures Leads(n, rest, Goal(p, t, a, AttemptState.NotDispatched, [], at))
  {
    hide At, Leads, Standing, System.Step;
    var load, tick := System.LoadSecret(p.e, false), System.Tick(at);
    var q := p.(phase := System.Unloaded(p.id));
    Loads(n, p, false);
    Ticks(System.Step(n, load), q, at);
    assert p.chunks + [] == p.chunks;
    rest := Closes(System.Step(System.Step(n, load), tick), q.(at := at, monotone := q.monotone && q.at <= at), t, a,
                   AttemptState.Reserved, p.at, reply);
    LeadsTwice(n, load, tick, rest, Goal(p, t, a, AttemptState.NotDispatched, [], at));
    rest := [load, tick] + rest;
  }

  /** The dispatch intent did not become known durable: whatever the row is, the guard drops. */
  lemma Undispatched(n: System.System, p: Spot, t: T.Rows, a: Attempt, reply: System.Reply, at: nat)
    returns (rest: seq<System.Event>)
    requires At(n, p) && p.phase == System.Loaded(p.id) && p.id == a.id && Holds(t, a) && p.at <= at
    requires p.rows == Standing(t, a, AttemptState.Reserved, p.at) && !reply.Delivered? && (reply.Refused? ==> at == p.at)
    ensures Leads(n, rest, Goal(p, t, a, if reply.Refused? then AttemptState.Reserved else AttemptState.Uncertain, [], at))
  {
    hide At, Leads, Standing, System.Step;
    var tick, mark := System.Tick(at), System.Dispatch(p.e, reply);
    var q := p.(at := at, monotone := p.monotone && p.at <= at);
    Ticks(n, p, at);
    Dispatches(System.Step(n, tick), q, t, a, p.at, reply);
    var next := System.Step(System.Step(n, tick), mark);
    var d := q.(phase := System.Dropping(p.id, Settlement.Uncertain, at),
                rows := if reply.Refused? then p.rows else Standing(t, a, AttemptState.Dispatching, at));
    assert p.chunks + [] == p.chunks;
    if reply.Refused? {
      Dropped(next, d, t, a, AttemptState.Reserved, p.at);
    } else {
      Dropped(next, d, t, a, AttemptState.Dispatching, at);
    }
    rest := [System.Drop(p.e, System.Delivered)];
    LeadsTwice(n, tick, mark, rest,
               Goal(p, t, a, if reply.Refused? then AttemptState.Reserved else AttemptState.Uncertain, [], at));
    rest := [tick, mark] + rest;
  }

  lemma Unsent(n: System.System, p: Spot, t: T.Rows, a: Attempt, certainty: DispatchCertainty, reply: System.Reply, at: nat)
    returns (rest: seq<System.Event>)
    requires At(n, p) && p.phase == System.Sending(p.id) && p.id == a.id && Holds(t, a) && p.at <= at
    requires p.rows == Standing(t, a, AttemptState.Dispatching, p.at)
    ensures Leads(n, rest, Goal(p, t, a,
      if certainty.NotDispatched? && !reply.Refused? then AttemptState.NotDispatched else AttemptState.Uncertain, [], at))
  {
    hide At, Leads, Standing, System.Step;
    var fail, tick := System.FailSend(p.e, certainty), System.Tick(at);
    var q := p.(phase := System.SendFailed(p.id, certainty));
    FailsSending(n, p, certainty);
    Ticks(System.Step(n, fail), q, at);
    assert p.chunks + [] == p.chunks;
    rest := Closes(System.Step(System.Step(n, fail), tick), q.(at := at, monotone := q.monotone && q.at <= at), t, a,
                   AttemptState.Dispatching, p.at, reply);
    LeadsTwice(n, fail, tick, rest, Goal(p, t, a,
      if certainty.NotDispatched? && !reply.Refused? then AttemptState.NotDispatched else AttemptState.Uncertain, [], at));
    rest := [fail, tick] + rest;
  }

  lemma Unstreamed(n: System.System, p: Spot, t: T.Rows, a: Attempt, reply: System.Reply, at: nat)
    returns (rest: seq<System.Event>)
    requires At(n, p) && p.phase == System.Replied(p.id) && p.id == a.id && Holds(t, a) && p.at <= at
    requires p.rows == Standing(t, a, AttemptState.Dispatching, p.at) && !reply.Delivered?
    ensures Leads(n, rest, Goal(p, t, a, AttemptState.Uncertain, [], at))
  {
    hide At, Leads, Standing, System.Step;
    var tick, mark := System.Tick(at), System.Stream(p.e, reply);
    var q := p.(at := at, monotone := p.monotone && p.at <= at);
    Ticks(n, p, at);
    Streams(System.Step(n, tick), q, t, a, p.at, reply);
    var next := System.Step(System.Step(n, tick), mark);
    var d := q.(phase := System.Dropping(p.id, Settlement.Uncertain, at),
                rows := if reply.Refused? then p.rows else Standing(t, a, AttemptState.Streaming, at));
    assert p.chunks + [] == p.chunks;
    if reply.Refused? {
      Dropped(next, d, t, a, AttemptState.Dispatching, p.at);
    } else {
      Dropped(next, d, t, a, AttemptState.Streaming, at);
    }
    rest := [System.Drop(p.e, System.Delivered)];
    LeadsTwice(n, tick, mark, rest, Goal(p, t, a, AttemptState.Uncertain, [], at));
    rest := [tick, mark] + rest;
  }

  lemma StreamedOn(n: System.System, p: Spot, t: T.Rows, a: Attempt, items: seq<System.Item>, finish: System.Reply, at: nat)
    returns (rest: seq<System.Event>)
    requires At(n, p) && p.phase == System.Replied(p.id) && p.id == a.id && Holds(t, a) && p.at <= at
    requires p.rows == Standing(t, a, AttemptState.Dispatching, p.at)
    ensures Leads(n, rest, Goal(p, t, a, if finish.Refused? then AttemptState.Uncertain else Verdict(items).State(),
                                Handed(items, finish.Delivered?), at))
  {
    hide At, Leads, Standing, System.Step;
    var mark, tick := System.Stream(p.e, System.Delivered), System.Tick(at);
    Streams(n, p, t, a, p.at, System.Delivered);
    var q := p.(phase := System.Draining(p.id), rows := Standing(t, a, AttemptState.Streaming, p.at));
    Ticks(System.Step(n, mark), q, at);
    rest := Drains(System.Step(System.Step(n, mark), tick), q.(at := at, monotone := q.monotone && q.at <= at), t, a, p.at,
                   items, finish);
    LeadsTwice(n, mark, tick, rest, Goal(p, t, a,
      if finish.Refused? then AttemptState.Uncertain else Verdict(items).State(), Handed(items, finish.Delivered?), at));
    rest := [mark, tick] + rest;
  }

  /** From a durable dispatch intent to the end. */
  lemma SentOn(n: System.System, p: Spot, t: T.Rows, a: Attempt, sent: Sent, replies: Replies, at: nat)
    returns (rest: seq<System.Event>)
    requires At(n, p) && p.phase == System.Ready(p.id) && p.id == a.id && Holds(t, a) && p.at <= at
    requires p.rows == Standing(t, a, AttemptState.Dispatching, p.at) && replies.dispatch.Delivered?
    ensures Leads(n, rest, Goal(p, t, a, Ending(true, sent, replies), Given(true, sent, replies), at))
  {
    hide At, Leads, Standing, System.Step, Handed, Verdict;
    var goal := Goal(p, t, a, Ending(true, sent, replies), Given(true, sent, replies), at);
    Sends(n, p);
    var next, q := System.Step(n, System.Invoke(p.e)), p.(phase := System.Sending(p.id));
    match sent {
      case Refused(_, certainty) =>
        rest := Unsent(next, q, t, a, certainty, replies.finish, at);
      case Streamed(items) =>
        Responds(next, q);
        var replied, r := System.Step(next, System.Respond(p.e)), q.(phase := System.Replied(p.id));
        if replies.stream.Delivered? {
          rest := StreamedOn(replied, r, t, a, items, replies.finish, at);
        } else {
          rest := Unstreamed(replied, r, t, a, replies.stream, at);
        }
        LeadsThen(next, System.Respond(p.e), rest, goal);
        rest := [System.Respond(p.e)] + rest;
    }
    LeadsThen(n, System.Invoke(p.e), rest, goal);
    rest := [System.Invoke(p.e)] + rest;
  }

  lemma Attempted(n: System.System, p: Spot, t: T.Rows, a: Attempt, loaded: bool, sent: Sent, replies: Replies, at: nat)
    returns (rest: seq<System.Event>)
    requires At(n, p) && p.phase == System.Prepared(p.id) && p.id == a.id && Holds(t, a) && p.at <= at
    requires p.rows == Standing(t, a, AttemptState.Reserved, p.at)
    requires loaded && replies.dispatch.Refused? ==> at == p.at
    ensures Leads(n, rest, Goal(p, t, a, Ending(loaded, sent, replies), Given(loaded, sent, replies), at))
  {
    hide At, Leads, Standing, System.Step, Handed, Verdict;
    if !loaded {
      rest := Unloads(n, p, t, a, replies.finish, at);
      return;
    }
    var goal := Goal(p, t, a, Ending(loaded, sent, replies), Given(loaded, sent, replies), at);
    var load := System.LoadSecret(p.e, true);
    Loads(n, p, true);
    var next, q := System.Step(n, load), p.(phase := System.Loaded(p.id));
    if !replies.dispatch.Delivered? {
      rest := Undispatched(next, q, t, a, replies.dispatch, at);
    } else {
      var mark := System.Dispatch(p.e, System.Delivered);
      Dispatches(next, q, t, a, p.at, System.Delivered);
      rest := SentOn(System.Step(next, mark),
                    q.(phase := System.Ready(p.id), rows := Standing(t, a, AttemptState.Dispatching, p.at)), t, a, sent, replies, at);
      LeadsThen(next, mark, rest, goal);
      rest := [mark] + rest;
    }
    LeadsThen(n, load, rest, goal);
    rest := [load] + rest;
  }

  lemma Admits(s: System.System, e: System.ExecId, uuid: AttemptId, began: nat)
    requires Safety.Inv(s) && s.up && e in s.execs && s.execs[e].phase.Bound? && s.execs[e].connected
    requires T.Admit(s.rows, s.execs[e].principal, s.execs[e].admission, began, uuid).result.Ok?
    ensures var o := T.Admit(s.rows, s.execs[e].principal, s.execs[e].admission, began, uuid);
      At(System.Step(System.Step(s, System.Tick(began)), System.Admitting(e, uuid, System.Delivered)),
         Spot(e, uuid, System.Prepared(uuid), o.rows, s.execs[e].offered, began, s.hist.monotone && s.clock <= began))
  {
    NeverSent(s, e, uuid, began);
    AdmitSteps(s, e, uuid, began);
    hide Safety.Inv, T.Admit, System.Step;
  }

  lemma NeverSent(s: System.System, e: System.ExecId, uuid: AttemptId, began: nat)
    requires Safety.Inv(s) && e in s.execs
    requires T.Admit(s.rows, s.execs[e].principal, s.execs[e].admission, began, uuid).result.Ok?
    ensures uuid !in s.hist.upstream
    ensures T.Admit(s.rows, s.execs[e].principal, s.execs[e].admission, began, uuid).result.value.attempt.id == uuid
  {
    AdmittedAnew(s.rows, s.execs[e].principal, s.execs[e].admission, began, uuid);
    assert Safety.AttemptInv(s, uuid);
    assert Safety.ViewOf(s.hist, uuid) == Safety.UNTOUCHED;
    hide T.Admit, Safety.Inv;
  }

  lemma AdmitSteps(s: System.System, e: System.ExecId, uuid: AttemptId, began: nat)
    requires s.up && e in s.execs && s.execs[e].phase.Bound?
    ensures var n := System.Step(s, System.Tick(began));
      && n == s.(clock := began, hist := s.hist.(monotone := s.hist.monotone && s.clock <= began))
      && System.Step(n, System.Admitting(e, uuid, System.Delivered))
           == System.AdmitExec(n, e, s.execs[e], uuid, System.Delivered)
  {
    hide System.AdmitExec;
  }

  lemma AdmittedAnew(t: T.Rows, p: Principal, adm: Admission, now: Timestamp, uuid: AttemptId)
    requires T.Admit(t, p, adm, now, uuid).result.Ok?
    ensures uuid !in t.attempts && T.Admit(t, p, adm, now, uuid).result.value.attempt.id == uuid
  {
  }

  lemma Arrives(s: System.System, events: seq<System.Event>, p: Spot)
    requires Leads(s, events, p)
    ensures var n := System.Run(s, events);
      n.rows == p.rows && p.e in n.execs && n.execs[p.e].phase == p.phase && n.execs[p.e].offered == p.chunks
    ensures System.Run(s, events).hist.monotone == p.monotone
  {
    hide System.Run;
  }

  /** A request as `Router.ExecuteInner` leaves it is where a run of the system leads: from any
      reachable state in which the execution is bound, to the same rows and the same chunks. */
  lemma RequestIsARun(s: System.System, e: System.ExecId, uuid: AttemptId, loaded: bool, sent: Sent, replies: Replies,
      began: nat, at: nat)
    returns (events: seq<System.Event>)
    requires Safety.Inv(s) && s.up && e in s.execs && s.execs[e].phase.Bound? && s.execs[e].connected
    requires s.execs[e].offered == []
    requires T.Admit(s.rows, s.execs[e].principal, s.execs[e].admission, began, uuid).result.Ok?
    requires began <= at && (loaded && replies.dispatch.Refused? ==> at == began)
    ensures var o := T.Admit(s.rows, s.execs[e].principal, s.execs[e].admission, began, uuid);
      var n := System.Run(s, events);
      && n.rows == Standing(o.rows, o.result.value.attempt, Ending(loaded, sent, replies), at)
      && e in n.execs && n.execs[e].phase.Ended? && n.execs[e].offered == Given(loaded, sent, replies)
      && n.hist.monotone == (s.hist.monotone && s.clock <= began)
  {
    var o := T.Admit(s.rows, s.execs[e].principal, s.execs[e].admission, began, uuid);
    var a := o.result.value.attempt;
    var tick, admit := System.Tick(began), System.Admitting(e, uuid, System.Delivered);
    var p := Spot(e, uuid, System.Prepared(uuid), o.rows, [], began, s.hist.monotone && s.clock <= began);
    Admits(s, e, uuid, began);
    AdmittedStands(s.rows, s.execs[e].principal, s.execs[e].admission, began, uuid);
    hide At, Leads, T.Admit, Standing, System.Step, System.Run, Ending, Given, Safety.Inv, Holds;
    var rest := Attempted(System.Step(System.Step(s, tick), admit), p, o.rows, a, loaded, sent, replies, at);
    LeadsTwice(s, tick, admit, rest, Goal(p, o.rows, a, Ending(loaded, sent, replies), Given(loaded, sent, replies), at));
    events := [tick, admit] + rest;
    Arrives(s, events, Goal(p, o.rows, a, Ending(loaded, sent, replies), Given(loaded, sent, replies), at));
    assert [] + Given(loaded, sent, replies) == Given(loaded, sent, replies);
  }
}
