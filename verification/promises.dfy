/** What the daemon promises, over every run. */
module Promises {
  import opened Domain
  import opened Tables
  import opened Laws
  import opened System
  import opened Safety
  import Steps
  import Runs

  // ------------------------------------------------------------- dispatch and pressure

  /** Work that may be running upstream is charged until a provider or an operator says
      otherwise, and an attempt recorded as not dispatched never reached the provider. */
  lemma ConservativePressure(events: seq<Event>, id: AttemptId)
    ensures var s := After(events);
      && (id in s.hist.invoked && id !in s.hist.evidence && id !in s.hist.certified && id !in s.hist.resolved ==>
            id in s.rows.attempts && Holding(s.rows.attempts[id]))
      && (id in s.rows.attempts && s.rows.attempts[id].state.NotDispatched? ==> id !in s.hist.upstream)
      && (id in s.hist.upstream ==> id in s.hist.invoked)
  {
    Runs.AlwaysHolds(events);
    assert AttemptInv(After(events), id);
  }

  /** Duplicates, races, crashes and recoveries never send an attempt, or an identified
      operation on a binding, twice. */
  lemma AtMostOneSend(events: seq<Event>, i: nat, j: nat)
    requires i < j < |After(events).hist.invoked|
    ensures var s := After(events); var x := s.hist.invoked[i]; var y := s.hist.invoked[j];
      && x != y && x in s.rows.attempts && y in s.rows.attempts
      && !ClashingOperations(s.rows.attempts[x], s.rows.attempts[y])
    ensures Distinct(After(events).hist.upstream)
  {
    var s := After(events);
    Runs.AlwaysHolds(events);
    assert AttemptInv(s, s.hist.invoked[i]) && AttemptInv(s, s.hist.invoked[j]);
  }

  /** With a clock that never goes back, an execution that was not aborted and whose storage
      answered ends exactly as its evidence says. */
  lemma SettlementIsExact(events: seq<Event>, id: AttemptId)
    requires After(events).hist.monotone && id in After(events).hist.finished
    ensures var s := After(events); var v := ViewOf(s.hist, id);
      && id in s.rows.attempts && s.rows.attempts[id].state !in {AttemptState.Reserved, AttemptState.Dispatching, AttemptState.Streaming}
      && (s.rows.attempts[id].state.NotDispatched? <==> v.unloaded || v.certified)
      && (v.evidence == Some(Settlement.Succeeded) ==> s.rows.attempts[id].state.Succeeded?)
      && (v.evidence == Some(Settlement.Rejected) ==> s.rows.attempts[id].state.Rejected?)
      && (!v.unloaded && !v.certified && v.evidence.None? && !v.resolved ==> s.rows.attempts[id].state.Uncertain?)
  {
    Runs.AlwaysHolds(events);
    assert AttemptInv(After(events), id);
  }

  // -------------------------------------------------------------------- one step's rows

  /** No event forgets a row, rewrites an identity, takes back an outcome or lowers a floor. */
  lemma StepEvolves(s: System, ev: Event)
    requires Inv(s)
    ensures Gentle(s.rows, Step(s, ev).rows, ev.Admitting?)
  {
    hide Gentle, Act, Recover, Administer, ResolveAttempt;
    StillGentle(s.rows, false);
    StillGentle(s.rows, true);
    var still := s.rows;
    match ev
    case Restart(reply) => RestartGentle(s, reply);
    case Admin(op, reply) => AdminGentle(s, op, reply);
    case Resolve(p, id, outcome, rationale, reply) => ResolveGentle(s, p, id, outcome, rationale, reply);
    case Tick(_) | Crash | Arrive(_, _, _, _) => assert Step(s, ev).rows == still;
    case _ =>
      if s.up && ev.e in s.execs { ActEvolves(s, ev.e, s.execs[ev.e], ev); }
  }

  lemma RestartGentle(s: System, reply: Reply)
    requires Inv(s)
    ensures Gentle(s.rows, Step(s, Restart(reply)).rows, false)
  {
    StillGentle(s.rows, false);
    RecoverKeeps(s.rows, s.clock);
    hide Inv, Consistent, Evolves;
  }

  lemma AdminGentle(s: System, op: AdminOp, reply: Reply)
    requires Inv(s)
    ensures Gentle(s.rows, Step(s, Admin(op, reply)).rows, false)
  {
    StillGentle(s.rows, false);
    Runs.AdministerKeepsRows(s.rows, op, s.clock);
    hide Inv, Consistent, Evolves, Administer;
  }

  lemma ResolveGentle(s: System, p: Principal, id: AttemptId, outcome: Settlement, rationale: string, reply: Reply)
    requires Inv(s)
    ensures Gentle(s.rows, Step(s, Resolve(p, id, outcome, rationale, reply)).rows, false)
  {
    StillGentle(s.rows, false);
    Runs.ResolveTouches(s.rows, p, id, outcome, rationale, s.clock);
    hide Inv, Consistent, Evolves, ResolveAttempt;
  }

  /** Rows move forward, and only an admission adds an attempt or charges anyone. */
  ghost predicate Gentle(t: Rows, u: Rows, admits: bool) {
    Evolves(t, u) && (!admits ==> ReleasesOnly(t, u) && u.attempts.Keys == t.attempts.Keys)
  }

  lemma StillGentle(t: Rows, admits: bool)
    ensures Gentle(t, t, admits)
  {
    EvolvesReflexively(t);
  }

  lemma BindGentle(t: Rows, p: Principal, intent: CreateBinding, now: Timestamp, uuid: BindingId)
    requires Consistent(t)
    ensures Gentle(t, Bind(t, p, intent, now, uuid).rows, false)
  {
    BindKeeps(t, p, intent, now, uuid);
  }

  lemma AdmitGentle(t: Rows, p: Principal, adm: Admission, now: Timestamp, uuid: AttemptId)
    requires Consistent(t)
    ensures Gentle(t, Admit(t, p, adm, now, uuid).rows, true)
  {
    EvolvesReflexively(t);
    if Admit(t, p, adm, now, uuid).result.Ok? {
      AdmitGrants(t, p, adm, now, uuid);
      InsertKeeps(t, Admit(t, p, adm, now, uuid).result.value.attempt);
    }
  }

  lemma AdvanceGentle(t: Rows, id: AttemptId, expected: AttemptState, next: AttemptState, now: Timestamp)
    requires Consistent(t) && id in t.attempts && expected.Active() && next.Active() && Reachable(expected, next)
    ensures Gentle(t, Advance(t, id, expected, next, now).rows, false)
  {
    Steps.AdvanceTouches(t, id, expected, next, now);
  }

  lemma SettleGentle(t: Rows, id: AttemptId, outcome: Settlement, now: Timestamp)
    requires Consistent(t) && id in t.attempts
    ensures Gentle(t, Settle(t, id, outcome, now).rows, false)
  {
    Steps.SettleTouches(t, id, outcome, now);
  }

  predicate WritesRows(ev: Event) {
    ev.Choose? || ev.Admitting? || ev.Dispatch? || ev.Stream? || ev.Finish? || ev.Drop?
  }

  lemma QuietAct(s: System, e: ExecId, x: Exec, ev: Event)
    requires ev.Own() && !WritesRows(ev)
    ensures Act(s, e, x, ev).rows == s.rows
  {
  }

  /** The only rows a writing step can leave. */
  lemma WrittenRows(s: System, e: ExecId, x: Exec, ev: Event)
    requires ev.Own() && WritesRows(ev)
    ensures var n := Act(s, e, x, ev); var t := s.rows; var now := s.clock;
      n.rows != t ==>
        match ev
        case Choose(_, pool, product, pin, uuid, _) =>
          x.session.Some? && n.rows == Bind(t, x.principal, ThreadIntent(x.session.value, pool, product, pin), now, uuid).rows
        case Admitting(_, uuid, _) => n.rows == Admit(t, x.principal, x.admission, now, uuid).rows
        case Dispatch(_, _) => x.phase.Loaded? && n.rows == MarkDispatching(t, x.phase.id, now).rows
        case Stream(_, _) => x.phase.Replied? && n.rows == MarkStreaming(t, x.phase.id, now).rows
        case Finish(_, _) => x.phase.Settling() && n.rows == Settle(t, x.phase.id, x.phase.Verdict(), now).rows
        case _ => x.phase.Dropping? && n.rows == Settle(t, x.phase.id, x.phase.outcome, x.phase.at).rows
  {
    hide Bind, Admit, Settle, Advance;
  }

  lemma ActEvolves(s: System, e: ExecId, x: Exec, ev: Event)
    requires Steps.Here(s, e, x) && ev.Own()
    ensures Gentle(s.rows, Act(s, e, x, ev).rows, ev.Admitting?)
  {
    assert ExecInv(s, x) && Consistent(s.rows);
    var t, now := s.rows, s.clock;
    StillGentle(t, ev.Admitting?);
    hide Gentle, Inv, Consistent, Bind, Admit, Settle, Advance, Act;
    if !WritesRows(ev) {
      QuietAct(s, e, x, ev);
    } else if Act(s, e, x, ev).rows != t {
      WrittenRows(s, e, x, ev);
      match ev
      case Choose(_, pool, product, pin, uuid, _) =>
        BindGentle(t, x.principal, ThreadIntent(x.session.value, pool, product, pin), now, uuid);
      case Admitting(_, uuid, _) => AdmitGentle(t, x.principal, x.admission, now, uuid);
      case Dispatch(_, _) => AdvanceGentle(t, x.phase.id, AttemptState.Reserved, AttemptState.Dispatching, now);
      case Stream(_, _) => AdvanceGentle(t, x.phase.id, AttemptState.Dispatching, AttemptState.Streaming, now);
      case Finish(_, _) => SettleGentle(t, x.phase.id, x.phase.Verdict(), now);
      case Drop(_, _) => SettleGentle(t, x.phase.id, x.phase.outcome, x.phase.at);
    }
  }

  // ------------------------------------------------------------------------ whole runs

  lemma {:induction false} RunEvolves(events: seq<Event>, more: seq<Event>)
    ensures Evolves(After(events).rows, After(events + more).rows)
  {
    if more == [] {
      assert events + more == events;
      EvolvesReflexively(After(events).rows);
    } else {
      var rest := more[..|more| - 1];
      var before := events + rest;
      assert (events + more)[..|events + more| - 1] == before;
      RunEvolves(events, rest);
      Runs.AlwaysHolds(before);
      StepEvolves(After(before), more[|more| - 1]);
      EvolvesTransitively(After(events).rows, After(before).rows, After(events + more).rows);
    }
  }

  /** A caller that holds the final chunk can rely on the ledger: the outcome it proves is
      recorded already, and stays. */
  lemma DurableBeforeDelivered(events: seq<Event>, more: seq<Event>, id: AttemptId)
    requires id in After(events).hist.delivered
    ensures var s := After(events); var n := After(events + more);
      && id in s.hist.evidence && id in s.rows.attempts && id in n.rows.attempts
      && s.rows.attempts[id].data.state == s.hist.evidence[id].State()
      && n.rows.attempts[id].data.state == s.hist.evidence[id].State()
      && (s.hist.evidence[id].Succeeded? <==> n.rows.attempts[id].data.state.Succeeded?)
      && (s.hist.evidence[id].Rejected? <==> n.rows.attempts[id].data.state.Rejected?)
  {
    var s, n := After(events), After(events + more);
    Runs.AlwaysHolds(events);
    Runs.AlwaysHolds(events + more);
    RunEvolves(events, more);
    assert AttemptInv(s, id);
    assert AttemptEvolves(s.rows.attempts[id], n.rows.attempts[id]);
    assert AttemptAgrees(id, s.rows.attempts[id], s.rows.bindings.Keys);
    assert AttemptAgrees(id, n.rows.attempts[id], n.rows.bindings.Keys);
  }

  /** Callers read an in-order prefix of the upstream chunks; once the proving chunk is out
      they have read everything, and it came last. */
  lemma BytesAreFaithful(events: seq<Event>, e: ExecId)
    requires e in After(events).execs
    ensures var x := After(events).execs[e];
      && x.offered <= x.read
      && (x.terminal ==> x.phase.Ended? && x.offered == x.read)
      && (x.phase.Proven? && x.phase.last.Some? ==> |x.offered| < |x.read|)
  {
    Runs.AlwaysHolds(events);
    assert ExecInv(After(events), After(events).execs[e]);
  }

  /** Pressure never passes the largest cap ever set, nor the present one if caps only rose. */
  lemma CapsHold(events: seq<Event>, owner: QuotaOwnerId)
    ensures var s := After(events);
      && HeldBy(s.rows, owner) <= CapOf(s.hist, owner)
      && (owner in s.rows.policies && owner !in s.hist.lowered ==>
            HeldBy(s.rows, owner) <= s.rows.policies[owner].maxConcurrency)
  {
    HeldIsPressure(After(events).rows, owner);
    Runs.AlwaysHolds(events);
  }

  /** Only an admission raises pressure, by one, and never at or above the present cap. */
  lemma OnlyAdmissionCharges(events: seq<Event>, ev: Event, owner: QuotaOwnerId)
    requires HeldBy(After(events + [ev]).rows, owner) > HeldBy(After(events).rows, owner)
    ensures var t := After(events).rows;
      && ev.Admitting? && owner in t.policies && HeldBy(t, owner) < t.policies[owner].maxConcurrency
      && HeldBy(After(events + [ev]).rows, owner) == HeldBy(t, owner) + 1
  {
    HeldIsPressure(After(events).rows, owner);
    HeldIsPressure(After(events + [ev]).rows, owner);
    var s := After(events);
    assert (events + [ev])[..|events + [ev]| - 1] == events;
    Runs.AlwaysHolds(events);
    StepEvolves(s, ev);
    if !ev.Admitting? {
      ReleasesLowerPressure(s.rows, Step(s, ev).rows, owner);
    } else {
      AdmittedRows(s, ev);
      var a := Admit(s.rows, s.execs[ev.e].principal, s.execs[ev.e].admission, s.clock, ev.uuid).result.value.attempt;
      InsertRaisesPressure(s.rows, a, owner);
    }
  }

  /** An admission that changes the rows is a granted claim. */
  lemma AdmittedRows(s: System, ev: Event)
    requires Inv(s) && ev.Admitting? && Step(s, ev).rows != s.rows
    ensures s.up && ev.e in s.execs && s.execs[ev.e].phase.Bound?
    ensures var x := s.execs[ev.e]; var o := Admit(s.rows, x.principal, x.admission, s.clock, ev.uuid);
      && o.result.Ok? && Step(s, ev).rows == InsertAttempt(s.rows, o.result.value.attempt)
      && o.result.value.attempt.id !in s.rows.attempts && o.result.value.attempt.state.Reserved?
      && o.result.value.attempt.quotaOwner in s.rows.policies
      && Pressure(s.rows, o.result.value.attempt.quotaOwner)
           < s.rows.policies[o.result.value.attempt.quotaOwner].maxConcurrency
      && UncertainOn(s.rows, o.result.value.attempt.binding) == {}
  {
    var x := s.execs[ev.e];
    var o := Admit(s.rows, x.principal, x.admission, s.clock, ev.uuid);
    AdmitGrants(s.rows, x.principal, x.admission, s.clock, ev.uuid);
  }

  /** Work without an operation identifier is alone on its binding; the rest is told apart. */
  lemma BindingsAreExclusive(events: seq<Event>, x: AttemptId, y: AttemptId)
    requires var m := After(events).rows.attempts;
      x in m && y in m && x != y && m[x].binding == m[y].binding
      && m[x].state in {AttemptState.Reserved, AttemptState.Dispatching, AttemptState.Streaming}
      && m[y].state in {AttemptState.Reserved, AttemptState.Dispatching, AttemptState.Streaming}
    ensures var m := After(events).rows.attempts;
      m[x].operation.Some? && m[y].operation.Some? && m[x].operation != m[y].operation
  {
    Runs.AlwaysHolds(events);
    var m := After(events).rows.attempts;
    assert !ClashingWork(m[x], m[y]) && !ClashingOperations(m[x], m[y]);
  }

  /** No claim is granted on a binding with an unresolved dispatch. */
  lemma UncertaintyFences(events: seq<Event>, ev: Event, id: AttemptId)
    requires id !in After(events).rows.attempts && id in After(events + [ev]).rows.attempts
    ensures UncertainOn(After(events).rows, After(events + [ev]).rows.attempts[id].binding) == {}
    ensures var m := After(events).rows.attempts;
      forall x :: x in m && m[x].binding == After(events + [ev]).rows.attempts[id].binding ==> !m[x].state.Uncertain?
  {
    var s := After(events);
    assert (events + [ev])[..|events + [ev]| - 1] == events;
    Runs.AlwaysHolds(events);
    StepEvolves(s, ev);
    AdmittedRows(s, ev);
    var b := After(events + [ev]).rows.attempts[id].binding;
    forall x | x in s.rows.attempts && s.rows.attempts[x].binding == b
      ensures !s.rows.attempts[x].state.Uncertain?
    {
      assert x !in UncertainOn(s.rows, b);
    }
  }

  /** Credential generations never go back: not the floor, and not what admissions were granted. */
  lemma GenerationsNeverFall(events: seq<Event>, more: seq<Event>, c: CredentialId)
    ensures Raises(Floor(After(events).rows, c), Floor(After(events + more).rows, c))
    ensures var granted := After(events).hist.granted;
      forall i, j :: 0 <= i < j < |granted| && granted[i].id == granted[j].id ==>
        granted[i].generation <= granted[j].generation
  {
    Runs.AlwaysHolds(events);
    RunEvolves(events, more);
    assert Raises(Floor(After(events).rows, c), Floor(After(events + more).rows, c));
  }

  /** However first requests race, and whatever is closed, disabled or restarted in between,
      two requests on one native thread run on one binding and one account. */
  lemma ThreadsKeepTheirBinding(events: seq<Event>, more: seq<Event>, e: ExecId, f: ExecId)
    requires e in After(events).execs && f in After(events + more).execs
    requires var x := After(events).execs[e]; var y := After(events + more).execs[f];
      && x.session.Some? && x.session == y.session && x.principal.id == y.principal.id
      && x.resolved.Some? && y.resolved.Some?
    ensures var s := After(events); var n := After(events + more);
      var x := s.execs[e]; var y := n.execs[f]; var b := x.resolved.value;
      && y.resolved == x.resolved && y.admission.binding == x.admission.binding == b
      && b in s.rows.bindings && b in n.rows.bindings
      && n.rows.bindings[b].account == s.rows.bindings[b].account
      && n.rows.bindings[b].data.intent == s.rows.bindings[b].data.intent
      && (s.rows.bindings[b].data.closedAt.Some? ==> n.rows.bindings[b] == s.rows.bindings[b])
  {
    var s, n := After(events), After(events + more);
    var x, y := s.execs[e], n.execs[f];
    Runs.AlwaysHolds(events);
    Runs.AlwaysHolds(events + more);
    RunEvolves(events, more);
    assert ExecInv(s, x) && ExecInv(n, y);
    var b, d := x.resolved.value, y.resolved.value;
    assert BindingEvolves(s.rows.bindings[b], n.rows.bindings[b]);
    assert SameSession(n.rows.bindings[b], n.rows.bindings[d]);
  }
}
