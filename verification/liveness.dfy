/** Whoever holds an attempt lets it go: no run keeps a guard armed by its own steps for long,
    and none leaves it stuck. */
module Liveness {
  import opened Domain
  import opened Tables
  import opened System
  import Steps

  /** How far an execution is from letting its attempt go. */
  function Distance(p: Phase): nat {
    match p
    case Prepared(_) => 8
    case Loaded(_) => 7
    case Ready(_) => 6
    case Sending(_) => 5
    case Replied(_) => 4
    case Draining(_) => 3
    case Interrupted(_) | Unloaded(_) | SendFailed(_, _) | Proven(_, _, _) => 2
    case Dropping(_, _, _) => 1
    case _ => 0
  }

  /** What an execution may still do besides taking chunks: its phases to come, the moment its
      request reaches the provider, and its caller hanging up. */
  ghost function Budget(s: System, e: ExecId): nat
    requires e in s.execs
  {
    var x := s.execs[e];
    Distance(x.phase)
    + (if Distance(x.phase) >= 5 && x.phase.id !in s.hist.upstream then 1 else 0)
    + (if x.connected then 1 else 0)
  }

  /** The execution still owns the attempt, or has ended and, if clean, is accounted for. */
  ghost predicate Stands(s: System, e: ExecId, id: AttemptId) {
    && s.up && e in s.execs
    && var x := s.execs[e];
    && if x.phase.Ended? then x.clean ==> id in s.hist.finished else x.phase.Owns() == Some(id)
  }

  /** The execution's own part of a step: a chunk taken, nothing at all, or some of its budget spent. */
  ghost predicate Spends(s: System, n: System, e: ExecId, ev: Event)
    requires e in s.execs && e in n.execs
  {
    n == s || (ev.Yield? && ev.item.Data? && Budget(n, e) <= Budget(s, e)) || Budget(n, e) < Budget(s, e)
  }

  /** The caller of this execution, and the storage it calls, do not fail it. */
  predicate Kind(ev: Event, e: ExecId) {
    ev.Own() && ev.e == e ==>
      && !ev.Abort?
      && (ev.Dispatch? || ev.Stream? || ev.Finish? || ev.Drop? ==> ev.reply.Delivered?)
  }

  /** A step of another execution, or of the process. */
  ghost predicate Elsewhere(s: System, n: System, e: ExecId) {
    && n.up && e in n.execs && e in s.execs && n.execs[e] == s.execs[e]
    && (forall id :: id in s.hist.upstream ==> id in n.hist.upstream)
    && s.hist.finished <= n.hist.finished
  }

  lemma ElsewhereStands(s: System, n: System, e: ExecId, id: AttemptId)
    requires Stands(s, e, id) && Elsewhere(s, n, e)
    ensures Stands(n, e, id) && Budget(n, e) <= Budget(s, e) && n.execs[e].clean == s.execs[e].clean
  {
  }

  lemma ProcessElsewhere(s: System, e: ExecId, ev: Event)
    requires s.up && e in s.execs && !ev.Own() && !ev.Crash?
    ensures Elsewhere(s, Step(s, ev), e)
  {
    hide Recover, Administer, ResolveAttempt;
  }

  lemma OthersElsewhere(s: System, e: ExecId, f: ExecId, ev: Event)
    requires s.up && e in s.execs && f in s.execs && f != e && ev.Own()
    ensures Elsewhere(s, Act(s, f, s.execs[f], ev), e)
  {
    hide Settle, Bind, Admit, Advance;
  }

  // ---------------------------------------------------------------- its own steps

  /** What one own step of an execution that stands does to it. */
  ghost predicate Takes(s: System, n: System, e: ExecId, id: AttemptId, ev: Event) {
    && Stands(n, e, id) && e in s.execs && Spends(s, n, e, ev)
    && (Kind(ev, e) ==> n.execs[e].clean == s.execs[e].clean)
  }

  /** The execution goes on to a later phase. */
  ghost predicate GoesOn(s: System, n: System, e: ExecId, id: AttemptId, ev: Event)
    requires Stands(s, e, id)
  {
    var x := s.execs[e];
    && x.phase.Owns() == Some(id) && n.up && e in n.execs
    && n.execs[e].phase.Owns() == Some(id) && Distance(n.execs[e].phase) < Distance(x.phase)
    && n.execs[e].connected == x.connected && n.hist.upstream == s.hist.upstream
    && n.hist.monotone == s.hist.monotone && n.clock == s.clock
    && (Kind(ev, e) ==> n.execs[e].clean == x.clean)
  }

  lemma GoingTakes(s: System, n: System, e: ExecId, id: AttemptId, ev: Event)
    requires Stands(s, e, id) && GoesOn(s, n, e, id, ev)
    ensures Takes(s, n, e, id, ev)
  {
  }

  lemma NothingTakes(s: System, e: ExecId, id: AttemptId, ev: Event)
    requires Stands(s, e, id)
    ensures Takes(s, s, e, id, ev)
  {
  }

  lemma Present(s: System, e: ExecId, id: AttemptId)
    requires Stands(s, e, id)
    ensures s.up && e in s.execs
  {
  }

  lemma LoadGoes(s: System, e: ExecId, id: AttemptId, loaded: bool)
    requires Stands(s, e, id) && s.execs[e].phase.Prepared?
    ensures GoesOn(s, Load(s, e, s.execs[e], loaded), e, id, LoadSecret(e, loaded))
  {
  }

  lemma DispatchGoes(s: System, e: ExecId, id: AttemptId, reply: Reply)
    requires Stands(s, e, id) && s.execs[e].phase.Loaded?
    ensures GoesOn(s, MarkDispatch(s, e, s.execs[e], reply), e, id, Dispatch(e, reply))
  {
    hide Advance;
  }

  lemma InvokeGoes(s: System, e: ExecId, id: AttemptId)
    requires Stands(s, e, id) && s.execs[e].phase.Ready?
    ensures GoesOn(s, BeginSend(s, e, s.execs[e]), e, id, Invoke(e))
  {
  }

  lemma FailGoes(s: System, e: ExecId, id: AttemptId, certainty: DispatchCertainty)
    requires Stands(s, e, id) && s.execs[e].phase.Sending?
    ensures GoesOn(s, EndSend(s, e, s.execs[e], certainty), e, id, FailSend(e, certainty))
  {
  }

  lemma RespondGoes(s: System, e: ExecId, id: AttemptId)
    requires Stands(s, e, id) && s.execs[e].phase.Sending?
    ensures GoesOn(s, Enter(s, e, s.execs[e], Replied(s.execs[e].phase.id)), e, id, Respond(e))
  {
  }

  lemma StreamGoes(s: System, e: ExecId, id: AttemptId, reply: Reply)
    requires Stands(s, e, id) && s.execs[e].phase.Replied?
    ensures GoesOn(s, MarkStream(s, e, s.execs[e], reply), e, id, Stream(e, reply))
  {
    hide Advance;
  }

  lemma PullGoes(s: System, e: ExecId, id: AttemptId, item: Item)
    requires Stands(s, e, id) && s.execs[e].phase.Draining? && !item.Data?
    ensures GoesOn(s, Pull(s, e, s.execs[e], item), e, id, Yield(e, item))
  {
  }

  lemma AbortGoes(s: System, e: ExecId, id: AttemptId)
    requires Stands(s, e, id) && s.execs[e].phase.Guarded()
    ensures GoesOn(s, DropGuard(s, e, s.execs[e].(clean := false)), e, id, Abort(e))
  {
  }

  lemma ReachTakes(s: System, e: ExecId, id: AttemptId)
    requires Stands(s, e, id) && s.execs[e].phase.Sending? && s.execs[e].phase.id !in s.hist.upstream
    ensures Takes(s, Reach(s, s.execs[e]), e, id, Transmit(e))
  {
  }

  lemma DataTakes(s: System, e: ExecId, id: AttemptId, bytes: Bytes)
    requires Stands(s, e, id) && s.execs[e].phase.Draining?
    ensures Takes(s, Pull(s, e, s.execs[e], Data(bytes)), e, id, Yield(e, Data(bytes)))
  {
  }

  lemma HangupTakes(s: System, e: ExecId, id: AttemptId)
    requires Stands(s, e, id)
    ensures Takes(s, Put(s, e, s.execs[e].(connected := false)), e, id, Hangup(e))
  {
    if !s.execs[e].connected { assert s.execs[e := s.execs[e].(connected := false)] == s.execs; }
  }

  predicate Early(ev: Event) { ev.LoadSecret? || ev.Dispatch? || ev.Invoke? || ev.Transmit? || ev.FailSend? || ev.Respond? }

  predicate Late(ev: Event) { ev.Stream? || ev.Yield? || ev.Hangup? || ev.Abort? }

  lemma EarlyTakes(s: System, e: ExecId, id: AttemptId, ev: Event)
    requires Stands(s, e, id) && ev.Own() && ev.e == e && Early(ev)
    ensures Takes(s, Act(s, e, s.execs[e], ev), e, id, ev)
  {
    hide Stands, Takes, GoesOn, Load, MarkDispatch, BeginSend, Reach, EndSend, Enter;
    Present(s, e, id);
    var x, n := s.execs[e], Act(s, e, s.execs[e], ev);
    NothingTakes(s, e, id, ev);
    match ev
    case LoadSecret(_, loaded) => if x.phase.Prepared? { LoadGoes(s, e, id, loaded); GoingTakes(s, n, e, id, ev); }
    case Dispatch(_, reply) => if x.phase.Loaded? { DispatchGoes(s, e, id, reply); GoingTakes(s, n, e, id, ev); }
    case Invoke(_) => if x.phase.Ready? { InvokeGoes(s, e, id); GoingTakes(s, n, e, id, ev); }
    case Transmit(_) => if x.phase.Sending? && x.phase.id !in s.hist.upstream { ReachTakes(s, e, id); }
    case FailSend(_, certainty) => if x.phase.Sending? && n != s { FailGoes(s, e, id, certainty); GoingTakes(s, n, e, id, ev); }
    case Respond(_) => if x.phase.Sending? { RespondGoes(s, e, id); GoingTakes(s, n, e, id, ev); }
  }

  lemma LateTakes(s: System, e: ExecId, id: AttemptId, ev: Event)
    requires Stands(s, e, id) && ev.Own() && ev.e == e && Late(ev)
    ensures Takes(s, Act(s, e, s.execs[e], ev), e, id, ev)
  {
    hide Stands, Takes, GoesOn, MarkStream, Pull, DropGuard, Put;
    Present(s, e, id);
    var x, n := s.execs[e], Act(s, e, s.execs[e], ev);
    NothingTakes(s, e, id, ev);
    match ev
    case Stream(_, reply) => if x.phase.Replied? { StreamGoes(s, e, id, reply); GoingTakes(s, n, e, id, ev); }
    case Yield(_, item) =>
      if x.phase.Draining? {
        if item.Data? { DataTakes(s, e, id, item.bytes); } else { PullGoes(s, e, id, item); GoingTakes(s, n, e, id, ev); }
      }
    case Hangup(_) => HangupTakes(s, e, id);
    case Abort(_) => if x.phase.Guarded() { AbortGoes(s, e, id); GoingTakes(s, n, e, id, ev); }
  }

  lemma FinishTakes(s: System, e: ExecId, id: AttemptId, reply: Reply)
    requires Stands(s, e, id) && s.execs[e].phase.Settling()
    ensures Takes(s, SettleExec(s, e, s.execs[e], reply), e, id, Finish(e, reply))
  {
    var x := s.execs[e];
    if Answer(Settle(s.rows, x.phase.id, x.phase.Verdict(), s.clock), reply).Err? {
      Steps.FailureShape(s, e, x, reply);
      hide Settle, SettleExec;
    } else {
      FinishedTakes(s, e, id, reply);
    }
  }

  lemma FinishedTakes(s: System, e: ExecId, id: AttemptId, reply: Reply)
    requires Stands(s, e, id) && s.execs[e].phase.Settling()
    requires var x := s.execs[e]; Answer(Settle(s.rows, x.phase.id, x.phase.Verdict(), s.clock), reply).Ok?
    ensures Takes(s, SettleExec(s, e, s.execs[e], reply), e, id, Finish(e, reply))
  {
    hide Settle;
  }

  lemma DropTakes(s: System, e: ExecId, id: AttemptId, reply: Reply)
    requires Stands(s, e, id) && s.execs[e].phase.Dropping?
    ensures Takes(s, SettleDropped(s, e, s.execs[e], reply), e, id, Drop(e, reply))
  {
    hide Settle;
  }

  lemma EndTakes(s: System, e: ExecId, id: AttemptId, ev: Event)
    requires Stands(s, e, id) && ev.Own() && ev.e == e && (ev.Finish? || ev.Drop?)
    ensures Takes(s, Act(s, e, s.execs[e], ev), e, id, ev)
  {
    NothingTakes(s, e, id, ev);
    hide SettleExec, SettleDropped, Takes, Stands;
    var x := s.execs[e];
    if ev.Finish? && x.phase.Settling() {
      FinishTakes(s, e, id, ev.reply);
    } else if ev.Drop? && x.phase.Dropping? {
      DropTakes(s, e, id, ev.reply);
    }
  }

  lemma IdleTakes(s: System, e: ExecId, id: AttemptId, ev: Event)
    requires Stands(s, e, id) && ev.Own() && ev.e == e && (ev.Lookup? || ev.Choose? || ev.Decline? || ev.Admitting?)
    ensures Takes(s, Act(s, e, s.execs[e], ev), e, id, ev)
  {
    NothingTakes(s, e, id, ev);
    var x := s.execs[e];
    if x.phase.Ended? { assert s.execs[e := x.(phase := Ended)] == s.execs; }
    hide LookUp, ChooseBinding, AdmitExec;
  }

  lemma StepTakes(s: System, e: ExecId, id: AttemptId, ev: Event)
    requires Stands(s, e, id) && !ev.Crash?
    ensures var n := Step(s, ev);
      Stands(n, e, id) && Budget(n, e) <= Budget(s, e) && (Kind(ev, e) ==> n.execs[e].clean == s.execs[e].clean)
    ensures ev.Own() && ev.e == e ==> Takes(s, Step(s, ev), e, id, ev)
  {
    hide Act, Budget;
    if !ev.Own() {
      ProcessElsewhere(s, e, ev);
      ElsewhereStands(s, Step(s, ev), e, id);
    } else if ev.e != e {
      if ev.e in s.execs {
        OthersElsewhere(s, e, ev.e, ev);
        ElsewhereStands(s, Step(s, ev), e, id);
      }
    } else if Early(ev) {
      EarlyTakes(s, e, id, ev);
    } else if Late(ev) {
      LateTakes(s, e, id, ev);
    } else if ev.Finish? || ev.Drop? {
      EndTakes(s, e, id, ev);
    } else {
      IdleTakes(s, e, id, ev);
    }
  }

  // ------------------------------------------------------------ the next step is there

  /** Storage that answers, a transport that fails and a stream that ends. */
  function Onward(e: ExecId, p: Phase): Event {
    match p
    case Prepared(_) => LoadSecret(e, true)
    case Loaded(_) => Dispatch(e, Delivered)
    case Ready(_) => Invoke(e)
    case Sending(_) => FailSend(e, DispatchCertainty.Unknown)
    case Replied(_) => Stream(e, Delivered)
    case Draining(_) => Yield(e, Eof)
    case Dropping(_, _, _) => Drop(e, Delivered)
    case _ => Finish(e, Delivered)
  }

  ghost predicate Moves(s: System, n: System, e: ExecId, x: Exec)
    requires x.phase.Owns().Some?
  {
    && n.up && e in n.execs && n.hist.monotone == s.hist.monotone && n.clock == s.clock
    && n.execs[e].clean == x.clean
    && if n.execs[e].phase.Ended? then x.clean ==> x.phase.id in n.hist.finished
       else n.execs[e].phase.Owns() == x.phase.Owns() && Distance(n.execs[e].phase) < Distance(x.phase)
  }

  lemma FinishMoves(s: System, e: ExecId, x: Exec)
    requires s.up && e in s.execs && s.execs[e] == x && x.phase.Settling()
    ensures Moves(s, SettleExec(s, e, x, Delivered), e, x)
  {
    if Answer(Settle(s.rows, x.phase.id, x.phase.Verdict(), s.clock), Delivered).Err? {
      Steps.FailureShape(s, e, x, Delivered);
      hide Settle, SettleExec;
    } else {
      FinishEnds(s, e, x);
    }
  }

  lemma FinishEnds(s: System, e: ExecId, x: Exec)
    requires s.up && e in s.execs && s.execs[e] == x && x.phase.Settling()
    requires Settle(s.rows, x.phase.id, x.phase.Verdict(), s.clock).result.Ok?
    ensures Moves(s, SettleExec(s, e, x, Delivered), e, x)
  {
    hide Settle;
  }

  lemma OnwardGoes(s: System, e: ExecId, id: AttemptId)
    requires Stands(s, e, id) && Distance(s.execs[e].phase) >= 3
    ensures var ev := Onward(e, s.execs[e].phase); GoesOn(s, Step(s, ev), e, id, ev) && Kind(ev, e)
  {
    hide GoesOn, Load, MarkDispatch, BeginSend, EndSend, MarkStream, Pull;
    match s.execs[e].phase
    case Prepared(_) => LoadGoes(s, e, id, true);
    case Loaded(_) => DispatchGoes(s, e, id, Delivered);
    case Ready(_) => InvokeGoes(s, e, id);
    case Sending(_) => FailGoes(s, e, id, DispatchCertainty.Unknown);
    case Replied(_) => StreamGoes(s, e, id, Delivered);
    case Draining(_) => PullGoes(s, e, id, Eof);
  }

  lemma GoesMoves(s: System, n: System, e: ExecId, id: AttemptId, ev: Event)
    requires Stands(s, e, id) && GoesOn(s, n, e, id, ev) && Kind(ev, e)
    ensures Moves(s, n, e, s.execs[e])
  {
  }

  lemma DropMoves(s: System, e: ExecId, x: Exec)
    requires s.up && e in s.execs && s.execs[e] == x && x.phase.Dropping?
    ensures Moves(s, Step(s, Onward(e, x.phase)), e, x)
  {
    hide Settle;
  }

  lemma OnwardMoves(s: System, e: ExecId, x: Exec)
    requires s.up && e in s.execs && s.execs[e] == x && x.phase.Owns().Some?
    ensures Moves(s, Step(s, Onward(e, x.phase)), e, x)
  {
    hide Moves;
    if x.phase.Settling() {
      FinishMoves(s, e, x);
      assert Step(s, Onward(e, x.phase)) == SettleExec(s, e, x, Delivered) by { hide SettleExec; }
    } else if x.phase.Dropping? {
      DropMoves(s, e, x);
    } else {
      OnwardGoes(s, e, x.phase.id);
      GoesMoves(s, Step(s, Onward(e, x.phase)), e, x.phase.id, Onward(e, x.phase)) by { hide Step, GoesOn; }
    }
  }

  // ------------------------------------------------------------------------ over runs

  predicate NoCrash(events: seq<Event>) { forall i :: 0 <= i < |events| ==> !events[i].Crash? }

  predicate AllKind(events: seq<Event>, e: ExecId) { forall i :: 0 <= i < |events| ==> Kind(events[i], e) }

  /** The execution's own steps in a run that changed anything, chunks taken aside. */
  ghost function Turns(s: System, events: seq<Event>, e: ExecId): nat {
    if events == [] then 0
    else
      var before, last := events[..|events| - 1], events[|events| - 1];
      var m := Run(s, before);
      Turns(s, before, e)
      + (if last.Own() && last.e == e && Step(m, last) != m && !(last.Yield? && last.item.Data?) then 1 else 0)
  }

  /** Settlement is total. However an execution that holds an attempt interleaves with the rest,
      and whatever storage and transport answer: it takes a bounded number of steps besides
      taking chunks; until it has ended it still owns the attempt and can take the next one; and
      once it has ended, it counts as cleanly finished unless it was aborted or storage failed it. */
  lemma {:induction false} SettlementIsTotal(s: System, e: ExecId, id: AttemptId, events: seq<Event>)
    requires s.up && e in s.execs && s.execs[e].phase.Owns() == Some(id) && NoCrash(events)
    ensures var n := Run(s, events);
      && e in n.execs
      && Turns(s, events, e) + Budget(n, e) <= Budget(s, e) <= 10
      && (if n.execs[e].phase.Ended? then n.execs[e].clean ==> id in n.hist.finished
          else n.execs[e].phase.Owns() == Some(id) && Moves(n, Step(n, Onward(e, n.execs[e].phase)), e, n.execs[e]))
      && (AllKind(events, e) ==> n.execs[e].clean == s.execs[e].clean)
  {
    StandsThroughout(s, e, id, events);
    hide Step, Budget;
    var n := Run(s, events);
    if !n.execs[e].phase.Ended? { OnwardMoves(n, e, n.execs[e]); }
    BudgetIsSmall(s, e);
  }

  lemma BudgetIsSmall(s: System, e: ExecId)
    requires e in s.execs
    ensures Budget(s, e) <= 10
  {
  }

  lemma {:induction false} StandsThroughout(s: System, e: ExecId, id: AttemptId, events: seq<Event>)
    requires Stands(s, e, id) && NoCrash(events)
    ensures var n := Run(s, events);
      && Stands(n, e, id) && Turns(s, events, e) + Budget(n, e) <= Budget(s, e)
      && (AllKind(events, e) ==> n.execs[e].clean == s.execs[e].clean)
  {
    if events != [] {
      var before, last := events[..|events| - 1], events[|events| - 1];
      StandsThroughout(s, e, id, before);
      StepTakes(Run(s, before), e, id, last);
      hide Step, Budget, Stands, Kind;
    }
  }

  /** Left alone with storage that answers, it ends. */
  lemma {:induction false} AlwaysCanEnd(s: System, e: ExecId) returns (rest: seq<Event>)
    requires s.up && e in s.execs && s.execs[e].phase.Owns().Some?
    ensures var n := Run(s, rest);
      && e in n.execs && n.execs[e].phase.Ended?
      && (s.execs[e].clean ==> s.execs[e].phase.id in n.hist.finished)
      && n.hist.monotone == s.hist.monotone && n.clock == s.clock
    decreases Distance(s.execs[e].phase)
  {
    var ev := Onward(e, s.execs[e].phase);
    var n := Step(s, ev);
    OnwardMoves(s, e, s.execs[e]);
    hide Step;
    assert Run(s, [ev]) == n by {
      assert [ev][..0] == [];
      assert Run(s, []) == s;
    }
    if n.execs[e].phase.Ended? {
      rest := [ev];
    } else {
      var more := AlwaysCanEnd(n, e);
      rest := [ev] + more;
      RunSplits(s, [ev], more);
    }
  }

  lemma {:induction false} RunSplits(s: System, a: seq<Event>, b: seq<Event>)
    ensures Run(s, a + b) == Run(Run(s, a), b)
  {
    if b == [] {
      assert a + b == a;
    } else {
      RunSplits(s, a, b[..|b| - 1]);
      assert (a + b)[..|a + b| - 1] == a + b[..|b| - 1];
    }
  }
}
