/** Every step of an execution that holds an attempt keeps the invariant. */
module Steps {
  import opened Domain
  import opened Tables
  import opened Laws
  import opened System
  import opened Safety

  // ------------------------------------------------------------ ledger calls on a row

  ghost predicate Touches(t: Rows, u: Rows, id: AttemptId) {
    Consistent(u) && Evolves(t, u) && ReleasesOnly(t, u) && RowsLocal(t, u, id)
  }

  lemma Untouched(t: Rows, id: AttemptId)
    requires Consistent(t)
    ensures Touches(t, t, id)
  {
    EvolvesReflexively(t);
  }

  lemma SaveTouches(t: Rows, a: Attempt)
    requires Consistent(t) && a.id in t.attempts
    requires Forward(t.attempts[a.id], t.attempts[a.id].(state := a.state, data := a))
    ensures Touches(t, SaveAttempt(t, a), a.id)
  {
    SaveKeeps(t, a);
  }

  /** A settlement moves one row, and only along an allowed edge. */
  ghost predicate Settled(t: Rows, o: Outcome<Attempt>, id: AttemptId, outcome: Settlement, now: Timestamp) {
    && id in t.attempts
    && RowsLocal(t, o.rows, id)
    && (o.result.Err? ==> o.rows == t)
    && (o.result.Ok? ==> (
          && o.rows.attempts[id].state == outcome.State()
          && o.rows.attempts[id].binding == t.attempts[id].binding
          && (o.rows == t || (
                SettleAllowed(t.attempts[id].state, outcome.State()) && o.rows.attempts[id].data.updatedAt == now))))
    && (SettleAllowed(t.attempts[id].state, outcome.State()) && t.attempts[id].data.updatedAt <= now && 0 <= now ==>
          o.result.Ok?)
  }

  lemma SettleTouches(t: Rows, id: AttemptId, outcome: Settlement, now: Timestamp)
    requires Consistent(t) && id in t.attempts
    ensures Touches(t, Settle(t, id, outcome, now).rows, id)
    ensures Settled(t, Settle(t, id, outcome, now), id, outcome, now)
  {
    var o := Settle(t, id, outcome, now);
    assert AttemptAgrees(id, t.attempts[id], t.bindings.Keys);
    if o.rows == t {
      Untouched(t, id);
    } else {
      SaveTouches(t, t.attempts[id].data.(state := outcome.State(), updatedAt := now));
    }
  }

  ghost predicate Advanced(t: Rows, o: Outcome<()>, id: AttemptId, expected: AttemptState, next: AttemptState,
      now: Timestamp) {
    && id in t.attempts
    && RowsLocal(t, o.rows, id)
    && (o.result.Err? ==> o.rows == t)
    && (o.result.Ok? ==> (
          && t.attempts[id].state == expected && o.rows.attempts[id].state == next
          && o.rows.attempts[id].binding == t.attempts[id].binding
          && o.rows.attempts[id].data.updatedAt == now >= 0))
    && (t.attempts[id].state == expected && t.attempts[id].data.updatedAt <= now && 0 <= now ==> o.result.Ok?)
  }

  lemma AdvanceTouches(t: Rows, id: AttemptId, expected: AttemptState, next: AttemptState, now: Timestamp)
    requires Consistent(t) && id in t.attempts && expected.Active() && next.Active() && Reachable(expected, next)
    ensures Touches(t, Advance(t, id, expected, next, now).rows, id)
    ensures Advanced(t, Advance(t, id, expected, next, now), id, expected, next, now)
  {
    var o := Advance(t, id, expected, next, now);
    assert AttemptAgrees(id, t.attempts[id], t.bindings.Keys);
    if o.result.Err? {
      Untouched(t, id);
    } else {
      SaveTouches(t, t.attempts[id].data.(state := next, updatedAt := now));
    }
  }

  /** A binding keeps its principal and session, so a route stays right. */
  lemma RouteStays(t: Rows, u: Rows, x: Exec)
    requires RouteInv(t, x) && BindingsEvolve(t.bindings, u.bindings)
    ensures RouteInv(u, x)
  {
    if x.session.Some? && x.resolved.Some? {
      assert BindingEvolves(t.bindings[x.resolved.value], u.bindings[x.resolved.value]);
    }
  }

  // ------------------------------------------------------------------ the frame, applied

  ghost predicate Here(s: System, e: ExecId, x: Exec) {
    Inv(s) && s.up && e in s.execs && s.execs[e] == x
  }

  /** All a guarded step needs to know. */
  ghost predicate Given(s: System, e: ExecId, x: Exec) {
    && e in s.execs && s.execs[e] == x && x.phase.Owns().Some?
    && ExecInv(s, x) && AttemptInv(s, x.phase.id) && x.phase.id in s.rows.attempts
    && Distinct(s.hist.invoked) && Distinct(s.hist.upstream)
  }

  /** All a guarded step must establish. */
  ghost predicate Owed(s: System, n: System, e: ExecId, id: AttemptId) {
    && LocalStep(s, n, e, id)
    && AttemptInv(n, id)
    && ExecInv(n, n.execs[e])
    && Distinct(n.hist.invoked) && Distinct(n.hist.upstream)
  }

  lemma Facts(s: System, e: ExecId, x: Exec)
    requires Here(s, e, x) && x.phase.Owns().Some?
    ensures Given(s, e, x) && Touches(s.rows, s.rows, x.phase.id) && Consistent(s.rows)
  {
    assert AttemptInv(s, x.phase.id);
    Untouched(s.rows, x.phase.id);
  }

  lemma OwedKeeps(s: System, n: System, e: ExecId, x: Exec)
    requires Here(s, e, x) && x.phase.Owns().Some?
    requires Touches(s.rows, n.rows, x.phase.id) && Owed(s, n, e, x.phase.id)
    ensures Inv(n)
  {
    LocalKeeps(s, n, e, x.phase.id);
  }

  lemma AdvanceFacts(s: System, e: ExecId, x: Exec, from: AttemptState, next: AttemptState)
    requires Here(s, e, x) && x.phase.Owns().Some? && from.Active() && next.Active() && Reachable(from, next)
    ensures var id := x.phase.id;
      && Given(s, e, x) && Touches(s.rows, s.rows, id)
      && Touches(s.rows, Advance(s.rows, id, from, next, s.clock).rows, id)
      && Advanced(s.rows, Advance(s.rows, id, from, next, s.clock), id, from, next, s.clock)
  {
    Facts(s, e, x);
    AdvanceTouches(s.rows, x.phase.id, from, next, s.clock);
    hide Advance, Touches, Advanced;
  }

  /** The pieces of a guarded step, checked one at a time. */
  lemma OwedFrom(s: System, n: System, e: ExecId, x: Exec, y: Exec)
    requires Given(s, e, x) && n == s.(rows := n.rows, execs := s.execs[e := y], hist := n.hist)
    requires y.phase.Owns() == x.phase.Owns() || y.phase.Owns().None?
    requires RowsLocal(s.rows, n.rows, x.phase.id) && HistoryLocal(s.hist, n.hist, x.phase.id)
    requires n.hist == s.hist.(evidence := n.hist.evidence, finished := n.hist.finished, delivered := n.hist.delivered)
    requires y == x.(phase := y.phase, clean := y.clean, read := y.read, offered := y.offered, terminal := y.terminal) && ChunksInv(y)
    requires n.rows.attempts[x.phase.id].binding == s.rows.attempts[x.phase.id].binding
    requires AttemptInv(n, x.phase.id)
    requires y.phase.Owns().Some? ==>
      PhaseInv(y.phase, y.clean, n.rows.attempts[x.phase.id], ViewOf(n.hist, x.phase.id), n.hist.monotone, n.clock)
    ensures Owed(s, n, e, x.phase.id)
  {
    assert RouteInv(n.rows, y);
  }

  // ------------------------------------------------------------------- before dispatch

  lemma LoadOwes(s: System, e: ExecId, x: Exec, loaded: bool)
    requires Given(s, e, x) && x.phase.Prepared?
    ensures Owed(s, Load(s, e, x, loaded), e, x.phase.id)
  {
  }

  lemma LoadKeeps(s: System, e: ExecId, x: Exec, loaded: bool)
    requires Here(s, e, x) && x.phase.Prepared?
    ensures Inv(Load(s, e, x, loaded))
  {
    Facts(s, e, x);
    LoadOwes(s, e, x, loaded);
    OwedKeeps(s, Load(s, e, x, loaded), e, x) by { hide *; }
  }

  lemma DispatchRow(x: Exec, y: Exec, r: AttemptRow, u: AttemptRow, v: View, reply: Reply, monotone: bool, clock: nat)
    requires x.phase.Loaded? && PhaseInv(x.phase, x.clean, r, v, monotone, clock) && RowInv(r, v, monotone, clock)
    requires u == r || (u.state.Dispatching? && u.data.updatedAt == clock)
    requires (u.state.Dispatching? && y == x.(phase := Ready(x.phase.id)))
          || y == Answered(x, reply).(phase := Dropping(x.phase.id, Settlement.Uncertain, clock))
    requires y.phase.Dropping? && reply.Delivered? ==> monotone ==> r.data.updatedAt > clock
    requires ChunksInv(x)
    ensures RowInv(u, v, monotone, clock) && PhaseInv(y.phase, y.clean, u, v, monotone, clock) && ChunksInv(y)
  {
  }

  lemma DispatchOwes(s: System, e: ExecId, x: Exec, reply: Reply)
    requires Given(s, e, x) && x.phase.Loaded?
    requires Advanced(s.rows, MarkDispatching(s.rows, x.phase.id, s.clock), x.phase.id,
                      AttemptState.Reserved, AttemptState.Dispatching, s.clock)
    ensures Owed(s, MarkDispatch(s, e, x, reply), e, x.phase.id)
  {
    var id := x.phase.id;
    var n := MarkDispatch(s, e, x, reply);
    assert PhaseInv(x.phase, x.clean, s.rows.attempts[id], ViewOf(s.hist, id), s.hist.monotone, s.clock);
    hide Owed, RowInv, ChunksInv, RowsLocal, Advance;
    DispatchRow(x, n.execs[e], s.rows.attempts[id], n.rows.attempts[id], ViewOf(s.hist, id), reply, s.hist.monotone, s.clock);
    hide PhaseInv;
    OwedFrom(s, n, e, x, n.execs[e]);
  }

  lemma DispatchRows(s: System, e: ExecId, x: Exec, reply: Reply)
    requires x.phase.Loaded?
    ensures var n := MarkDispatch(s, e, x, reply); n.rows == s.rows || n.rows == MarkDispatching(s.rows, x.phase.id, s.clock).rows
  {
    hide Advance;
  }

  lemma DispatchKeeps(s: System, e: ExecId, x: Exec, reply: Reply)
    requires Here(s, e, x) && x.phase.Loaded?
    ensures Inv(MarkDispatch(s, e, x, reply))
  {
    AdvanceFacts(s, e, x, AttemptState.Reserved, AttemptState.Dispatching);
    hide Inv, Consistent, Owed, Given, Advance, Advanced, Touches, MarkDispatch;
    DispatchOwes(s, e, x, reply);
    DispatchRows(s, e, x, reply);
    OwedKeeps(s, MarkDispatch(s, e, x, reply), e, x) by { hide *; }
  }

  // ------------------------------------------------------------------------- upstream

  lemma Extended(ids: seq<AttemptId>, id: AttemptId)
    requires Distinct(ids) && id !in ids
    ensures Distinct(ids + [id]) && (forall x :: x in ids + [id] <==> x in ids || x == id)
  {
  }

  lemma BeginSendOwes(s: System, e: ExecId, x: Exec)
    requires Given(s, e, x) && x.phase.Ready?
    ensures Owed(s, BeginSend(s, e, x), e, x.phase.id)
  {
    Extended(s.hist.invoked, x.phase.id);
  }

  lemma BeginSendKeeps(s: System, e: ExecId, x: Exec)
    requires Here(s, e, x) && x.phase.Ready?
    ensures Inv(BeginSend(s, e, x))
  {
    Facts(s, e, x);
    BeginSendOwes(s, e, x);
    OwedKeeps(s, BeginSend(s, e, x), e, x) by { hide *; }
  }

  lemma ReachOwes(s: System, e: ExecId, x: Exec)
    requires Given(s, e, x) && x.phase.Sending? && x.phase.id !in s.hist.upstream
    ensures Owed(s, Reach(s, x), e, x.phase.id)
  {
    Extended(s.hist.upstream, x.phase.id);
    assert s.execs == s.execs[e := x];
  }

  lemma ReachKeeps(s: System, e: ExecId, x: Exec)
    requires Here(s, e, x) && x.phase.Sending? && x.phase.id !in s.hist.upstream
    ensures Inv(Reach(s, x))
  {
    Facts(s, e, x);
    ReachOwes(s, e, x);
    OwedKeeps(s, Reach(s, x), e, x) by { hide *; }
  }

  lemma EndSendOwes(s: System, e: ExecId, x: Exec, certainty: DispatchCertainty)
    requires Given(s, e, x) && x.phase.Sending?
    requires certainty.NotDispatched? ==> x.phase.id !in s.hist.upstream
    ensures Owed(s, EndSend(s, e, x, certainty), e, x.phase.id)
  {
  }

  lemma EndSendKeeps(s: System, e: ExecId, x: Exec, certainty: DispatchCertainty)
    requires Here(s, e, x) && x.phase.Sending?
    requires certainty.NotDispatched? ==> x.phase.id !in s.hist.upstream
    ensures Inv(EndSend(s, e, x, certainty))
  {
    Facts(s, e, x);
    EndSendOwes(s, e, x, certainty);
    OwedKeeps(s, EndSend(s, e, x, certainty), e, x) by { hide *; }
  }

  /** Moves that change nothing but the phase. */
  lemma PhaseOwes(s: System, e: ExecId, x: Exec, phase: Phase)
    requires Given(s, e, x)
    requires (x.phase.Sending? && phase == Replied(x.phase.id)) || (x.phase.Draining? && phase == Interrupted(x.phase.id))
    ensures Owed(s, Enter(s, e, x, phase), e, x.phase.id)
  {
  }

  lemma PhaseKeeps(s: System, e: ExecId, x: Exec, phase: Phase)
    requires Here(s, e, x)
    requires (x.phase.Sending? && phase == Replied(x.phase.id)) || (x.phase.Draining? && phase == Interrupted(x.phase.id))
    ensures Inv(Enter(s, e, x, phase))
  {
    Facts(s, e, x);
    PhaseOwes(s, e, x, phase);
    OwedKeeps(s, Enter(s, e, x, phase), e, x) by { hide *; }
  }

  lemma StreamRow(x: Exec, y: Exec, r: AttemptRow, u: AttemptRow, v: View, reply: Reply, monotone: bool, clock: nat)
    requires x.phase.Replied? && PhaseInv(x.phase, x.clean, r, v, monotone, clock) && RowInv(r, v, monotone, clock)
    requires u == r || (u.state.Streaming? && u.data.updatedAt == clock)
    requires (u.state.Streaming? && y == x.(phase := Draining(x.phase.id)))
          || y == Answered(x, reply).(phase := Dropping(x.phase.id, Settlement.Uncertain, clock))
    requires y.phase.Dropping? && reply.Delivered? ==> monotone ==> r.data.updatedAt > clock
    requires ChunksInv(x)
    ensures RowInv(u, v, monotone, clock) && PhaseInv(y.phase, y.clean, u, v, monotone, clock) && ChunksInv(y)
  {
  }

  lemma StreamOwes(s: System, e: ExecId, x: Exec, reply: Reply)
    requires Given(s, e, x) && x.phase.Replied?
    requires Advanced(s.rows, MarkStreaming(s.rows, x.phase.id, s.clock), x.phase.id,
                      AttemptState.Dispatching, AttemptState.Streaming, s.clock)
    ensures Owed(s, MarkStream(s, e, x, reply), e, x.phase.id)
  {
    var id := x.phase.id;
    var n := MarkStream(s, e, x, reply);
    assert PhaseInv(x.phase, x.clean, s.rows.attempts[id], ViewOf(s.hist, id), s.hist.monotone, s.clock);
    hide Owed, RowInv, ChunksInv, RowsLocal;
    StreamRow(x, n.execs[e], s.rows.attempts[id], n.rows.attempts[id], ViewOf(s.hist, id), reply, s.hist.monotone, s.clock);
    hide PhaseInv;
    OwedFrom(s, n, e, x, n.execs[e]);
  }

  lemma StreamRows(s: System, e: ExecId, x: Exec, reply: Reply)
    requires x.phase.Replied?
    ensures var n := MarkStream(s, e, x, reply); n.rows == s.rows || n.rows == MarkStreaming(s.rows, x.phase.id, s.clock).rows
  {
    hide Advance;
  }

  lemma StreamKeeps(s: System, e: ExecId, x: Exec, reply: Reply)
    requires Here(s, e, x) && x.phase.Replied?
    ensures Inv(MarkStream(s, e, x, reply))
  {
    AdvanceFacts(s, e, x, AttemptState.Dispatching, AttemptState.Streaming);
    hide Inv, Consistent, Owed, Given, Advance, Advanced, Touches, MarkStream;
    StreamOwes(s, e, x, reply);
    StreamRows(s, e, x, reply);
    OwedKeeps(s, MarkStream(s, e, x, reply), e, x) by { hide *; }
  }

  // -------------------------------------------------------------------------- the drain

  lemma DataOwes(s: System, e: ExecId, x: Exec, bytes: Bytes)
    requires Given(s, e, x) && x.phase.Draining?
    ensures Owed(s, Pull(s, e, x, Data(bytes)), e, x.phase.id)
  {
  }

  lemma ProvenChunks(x: Exec, y: Exec, last: Option<Bytes>, outcome: Settlement)
    requires x.phase.Draining? && ChunksInv(x) && y == x.(read := y.read, phase := y.phase)
    requires y.read == x.read + if last.Some? then [last.value] else []
    requires y.phase == Proven(x.phase.id, outcome, last) || y.phase.Dropping?
    ensures ChunksInv(y)
  {
    assert last.Some? ==> y.read[..|y.read| - 1] == x.read;
  }

  lemma ProvenRow(x: Exec, y: Exec, outcome: Settlement, last: Option<Bytes>, r: AttemptRow, v: View, w: View,
      monotone: bool, clock: nat)
    requires x.phase.Draining? && PhaseInv(x.phase, x.clean, r, v, monotone, clock) && RowInv(r, v, monotone, clock)
    requires y.clean == x.clean
    requires if outcome.Evidence() then y.phase == Proven(x.phase.id, outcome, last) && w == v.(evidence := Some(outcome))
             else y.phase == Dropping(x.phase.id, Settlement.Uncertain, clock) && w == v
    ensures RowInv(r, w, monotone, clock) && PhaseInv(y.phase, y.clean, r, w, monotone, clock)
  {
  }

  lemma ProveShape(s: System, e: ExecId, x: Exec, read: seq<Bytes>, outcome: Settlement, last: Option<Bytes>)
    requires e in s.execs && s.execs[e] == x && x.phase.Draining?
    ensures var n := Prove(s, e, x.(read := read), outcome, last); var y := n.execs[e]; var id := x.phase.id;
      && n == s.(execs := s.execs[e := y], hist := n.hist) && n.hist == s.hist.(evidence := n.hist.evidence)
      && HistoryLocal(s.hist, n.hist, id) && y == x.(read := read, phase := y.phase)
      && if outcome.Evidence() then
           y.phase == Proven(id, outcome, last) && ViewOf(n.hist, id) == ViewOf(s.hist, id).(evidence := Some(outcome))
         else y.phase == Dropping(id, Settlement.Uncertain, s.clock) && ViewOf(n.hist, id) == ViewOf(s.hist, id)
  {
  }

  lemma ProveOwes(s: System, e: ExecId, x: Exec, read: seq<Bytes>, outcome: Settlement, last: Option<Bytes>)
    requires Given(s, e, x) && x.phase.Draining?
    requires read == x.read + if last.Some? then [last.value] else []
    ensures Owed(s, Prove(s, e, x.(read := read), outcome, last), e, x.phase.id)
  {
    hide Prove, Owed, RowInv, ChunksInv, PhaseInv, HistoryLocal, ViewOf;
    var id := x.phase.id;
    var n := Prove(s, e, x.(read := read), outcome, last);
    ProveShape(s, e, x, read, outcome, last);
    ProvenChunks(x, n.execs[e], last, outcome);
    ProvenRow(x, n.execs[e], outcome, last, s.rows.attempts[id], ViewOf(s.hist, id), ViewOf(n.hist, id),
              s.hist.monotone, s.clock);
    OwedFrom(s, n, e, x, n.execs[e]);
  }

  lemma PullOwes(s: System, e: ExecId, x: Exec, item: Item)
    requires Given(s, e, x) && x.phase.Draining?
    ensures Owed(s, Pull(s, e, x, item), e, x.phase.id)
  {
    hide Given, Owed, Prove;
    match item {
      case Data(bytes) => DataOwes(s, e, x, bytes);
      case Terminal(bytes, outcome) => ProveOwes(s, e, x, x.read + [bytes], outcome, Some(bytes));
      case Finished(outcome) =>
        assert x.(read := x.read) == x;
        ProveOwes(s, e, x, x.read, outcome, None);
      case Broken | Eof => InterruptOwes(s, e, x);
    }
  }

  lemma InterruptOwes(s: System, e: ExecId, x: Exec)
    requires Given(s, e, x) && x.phase.Draining?
    ensures Owed(s, Enter(s, e, x, Interrupted(x.phase.id)), e, x.phase.id)
  {
    PhaseOwes(s, e, x, Interrupted(x.phase.id));
  }

  lemma PullRows(s: System, e: ExecId, x: Exec, item: Item)
    requires x.phase.Draining?
    ensures Pull(s, e, x, item).rows == s.rows
  {
  }

  lemma PullKeeps(s: System, e: ExecId, x: Exec, item: Item)
    requires Here(s, e, x) && x.phase.Draining?
    ensures Inv(Pull(s, e, x, item))
  {
    Facts(s, e, x);
    hide Pull, Given, Owed, Inv, Consistent, Touches;
    PullOwes(s, e, x, item);
    PullRows(s, e, x, item);
    OwedKeeps(s, Pull(s, e, x, item), e, x) by { hide *; }
  }

  // ------------------------------------------------------------------------- settlement

  /** The row an explicit settlement leaves agrees with what the execution proved. */
  lemma SettledRow(p: Phase, clean: bool, r: AttemptRow, u: AttemptRow, v: View, w: View, monotone: bool, clock: nat)
    requires p.Settling() && PhaseInv(p, clean, r, v, monotone, clock) && RowInv(r, v, monotone, clock)
    requires u.state == p.Verdict().State() && (u.data.updatedAt == r.data.updatedAt || u.data.updatedAt == clock)
    requires w == v.(finished := w.finished, delivered := w.delivered) && (w.delivered ==> p.Proven?)
    ensures RowInv(u, w, monotone, clock)
  {
    match p
    case Unloaded(_) =>
    case SendFailed(_, _) =>
    case Proven(_, _, _) =>
    case Interrupted(_) =>
  }

  lemma FailureShape(s: System, e: ExecId, x: Exec, reply: Reply)
    requires e in s.execs && s.execs[e] == x && x.phase.Settling()
    requires Answer(Settle(s.rows, x.phase.id, x.phase.Verdict(), s.clock), reply).Err?
    ensures var n := SettleExec(s, e, x, reply); var y := n.execs[e];
      && n == s.(rows := n.rows, execs := s.execs[e := y])
      && n.rows == Applied(s.rows, Settle(s.rows, x.phase.id, x.phase.Verdict(), s.clock), reply)
      && y == x.(phase := Dropping(x.phase.id, x.phase.OnDrop(), s.clock), clean := x.clean && reply.Delivered?)
  {
    hide Settle;
  }

  /** A failed settlement leaves the guard armed: it is dropped with its own verdict. */
  lemma FailureOwes(s: System, e: ExecId, x: Exec, reply: Reply)
    requires Given(s, e, x) && x.phase.Settling()
    requires var o := Settle(s.rows, x.phase.id, x.phase.Verdict(), s.clock);
      Answer(o, reply).Err? && Settled(s.rows, o, x.phase.id, x.phase.Verdict(), s.clock)
    ensures Owed(s, SettleExec(s, e, x, reply), e, x.phase.id)
  {
    var id := x.phase.id;
    var n := SettleExec(s, e, x, reply);
    var r, u, v := s.rows.attempts[id], n.rows.attempts[id], ViewOf(s.hist, id);
    assert PhaseInv(x.phase, x.clean, r, v, s.hist.monotone, s.clock);
    FailureShape(s, e, x, reply);
    hide Owed, RowInv, ChunksInv, PhaseInv, SettleExec, Settle;
    if n.rows != s.rows {
      SettledRow(x.phase, x.clean, r, u, v, v, s.hist.monotone, s.clock);
    }
    FailedPhase(s, x, r, u, v, reply);
    FailedChunks(x, n.execs[e], s.clock);
    OwedFrom(s, n, e, x, n.execs[e]);
  }

  lemma FailedPhase(s: System, x: Exec, r: AttemptRow, u: AttemptRow, v: View, reply: Reply)
    requires x.phase.Settling() && PhaseInv(x.phase, x.clean, r, v, s.hist.monotone, s.clock)
    requires RowInv(r, v, s.hist.monotone, s.clock)
    requires u == r || u.state == x.phase.Verdict().State()
    requires x.clean && reply.Delivered? && s.hist.monotone ==>
      !SettleAllowed(r.state, x.phase.Verdict().State()) || r.data.updatedAt > s.clock
    ensures PhaseInv(Dropping(x.phase.id, x.phase.OnDrop(), s.clock), x.clean && reply.Delivered?, u, v,
                     s.hist.monotone, s.clock)
  {
  }

  lemma FailedChunks(x: Exec, y: Exec, clock: nat)
    requires x.phase.Settling() && ChunksInv(x)
    requires y == x.(phase := Dropping(x.phase.id, x.phase.OnDrop(), clock), clean := y.clean)
    ensures ChunksInv(y)
  {
  }

  lemma SettledChunks(x: Exec, y: Exec)
    requires x.phase.Settling() && ChunksInv(x)
    requires y == x.(phase := Ended) || (
      x.phase.Proven? && x.phase.last.Some? && x.connected && y == Offer(x, x.phase.last.value).(phase := Ended, terminal := true))
    ensures ChunksInv(y)
  {
    if x.phase.Proven? && x.phase.last.Some? {
      assert x.read == x.read[..|x.read| - 1] + [x.phase.last.value];
    }
  }

  lemma SettlementShape(s: System, e: ExecId, x: Exec)
    requires e in s.execs && s.execs[e] == x && x.phase.Settling()
    requires Settle(s.rows, x.phase.id, x.phase.Verdict(), s.clock).result.Ok?
    ensures var n := SettleExec(s, e, x, Delivered); var y := n.execs[e];
      var v := ViewOf(s.hist, x.phase.id); var w := ViewOf(n.hist, x.phase.id);
      && n == s.(rows := Settle(s.rows, x.phase.id, x.phase.Verdict(), s.clock).rows, execs := s.execs[e := y], hist := n.hist)
      && n.hist == s.hist.(finished := n.hist.finished, delivered := n.hist.delivered)
      && HistoryLocal(s.hist, n.hist, x.phase.id)
      && w == v.(finished := w.finished, delivered := w.delivered) && (w.delivered ==> v.delivered || x.phase.Proven?)
      && (y == x.(phase := Ended)
          || (x.phase.Proven? && x.phase.last.Some? && x.connected && y == Offer(x, x.phase.last.value).(phase := Ended, terminal := true)))
  {
  }

  lemma SettlementOwes(s: System, e: ExecId, x: Exec)
    requires Given(s, e, x) && x.phase.Settling()
    requires var o := Settle(s.rows, x.phase.id, x.phase.Verdict(), s.clock);
      o.result.Ok? && Settled(s.rows, o, x.phase.id, x.phase.Verdict(), s.clock)
    ensures Owed(s, SettleExec(s, e, x, Delivered), e, x.phase.id)
  {
    var id := x.phase.id;
    var n := SettleExec(s, e, x, Delivered);
    SettlementShape(s, e, x);
    assert PhaseInv(x.phase, x.clean, s.rows.attempts[id], ViewOf(s.hist, id), s.hist.monotone, s.clock);
    assert id in n.rows.attempts;
    hide Owed, RowInv, ChunksInv, RowsLocal, SettleExec, HistoryLocal, Settle;
    SettledChunks(x, n.execs[e]);
    SettledRow(x.phase, x.clean, s.rows.attempts[id], n.rows.attempts[id], ViewOf(s.hist, id), ViewOf(n.hist, id),
               s.hist.monotone, s.clock);
    hide PhaseInv;
    OwedFrom(s, n, e, x, n.execs[e]);
  }

  lemma FinishKeeps(s: System, e: ExecId, x: Exec, reply: Reply)
    requires Here(s, e, x) && x.phase.Settling()
    ensures Inv(SettleExec(s, e, x, reply))
  {
    var id := x.phase.id;
    Facts(s, e, x);
    SettleTouches(s.rows, id, x.phase.Verdict(), s.clock);
    if Answer(Settle(s.rows, id, x.phase.Verdict(), s.clock), reply).Err? {
      FailureOwes(s, e, x, reply);
    } else {
      SettlementOwes(s, e, x);
    }
    var n := SettleExec(s, e, x, reply);
    hide Inv, Consistent, Owed, Given, Settle, Touches;
    assert n.rows == s.rows || n.rows == Settle(s.rows, id, x.phase.Verdict(), s.clock).rows;
    OwedKeeps(s, n, e, x) by { hide *; }
  }

  /** A dropped guard settles conservatively or not at all. */
  lemma DroppedRow(p: Phase, clean: bool, r: AttemptRow, u: AttemptRow, v: View, w: View, monotone: bool, clock: nat)
    requires p.Dropping? && PhaseInv(p, clean, r, v, monotone, clock) && RowInv(r, v, monotone, clock)
    requires u == r || (
      SettleAllowed(r.state, p.outcome.State()) && u.state == p.outcome.State() && u.data.updatedAt == p.at)
    requires w == v.(finished := w.finished) && (w.finished && monotone ==> clean && u != r)
    ensures RowInv(u, w, monotone, clock)
  {
  }

  lemma DropOwes(s: System, e: ExecId, x: Exec, reply: Reply)
    requires Given(s, e, x) && x.phase.Dropping?
    requires Settled(s.rows, Settle(s.rows, x.phase.id, x.phase.outcome, x.phase.at), x.phase.id, x.phase.outcome,
                     x.phase.at)
    ensures Owed(s, SettleDropped(s, e, x, reply), e, x.phase.id)
  {
    var id := x.phase.id;
    var n := SettleDropped(s, e, x, reply);
    assert ChunksInv(n.execs[e]);
    DroppedRow(x.phase, x.clean, s.rows.attempts[id], n.rows.attempts[id], ViewOf(s.hist, id),
               ViewOf(n.hist, id), s.hist.monotone, s.clock);
  }

  lemma DropKeeps(s: System, e: ExecId, x: Exec, reply: Reply)
    requires Here(s, e, x) && x.phase.Dropping?
    ensures Inv(SettleDropped(s, e, x, reply))
  {
    var id := x.phase.id;
    Facts(s, e, x);
    SettleTouches(s.rows, id, x.phase.outcome, x.phase.at);
    DropOwes(s, e, x, reply);
    var n := SettleDropped(s, e, x, reply);
    assert n.rows == s.rows || n.rows == Settle(s.rows, id, x.phase.outcome, x.phase.at).rows;
    OwedKeeps(s, n, e, x) by { hide *; }
  }

  lemma AbortOwes(s: System, e: ExecId, x: Exec)
    requires Given(s, e, x) && x.phase.Guarded()
    ensures Owed(s, DropGuard(s, e, x.(clean := false)), e, x.phase.id)
  {
  }

  lemma AbortKeeps(s: System, e: ExecId, x: Exec)
    requires Here(s, e, x) && x.phase.Guarded()
    ensures Inv(DropGuard(s, e, x.(clean := false)))
  {
    Facts(s, e, x);
    AbortOwes(s, e, x);
    var n := DropGuard(s, e, x.(clean := false));
    assert n.rows == s.rows;
    OwedKeeps(s, n, e, x) by { hide *; }
  }

  lemma HangupOwes(s: System, e: ExecId, x: Exec)
    requires Given(s, e, x)
    ensures Owed(s, Put(s, e, x.(connected := false)), e, x.phase.id)
  {
  }

  lemma HangupKeeps(s: System, e: ExecId, x: Exec)
    requires Here(s, e, x) && x.phase.Owns().Some?
    ensures Inv(Put(s, e, x.(connected := false)))
  {
    Facts(s, e, x);
    HangupOwes(s, e, x);
    OwedKeeps(s, Put(s, e, x.(connected := false)), e, x) by { hide *; }
  }
}
