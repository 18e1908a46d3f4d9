/** The invariant over whole runs, and what it promises. */
module Runs {
  import opened Domain
  import opened Tables
  import opened Laws
  import opened System
  import opened Safety
  import Steps

  // ------------------------------------------------- steps that own no attempt

  /** Administration: the attempts stay, everything else may move. */
  ghost predicate Administered(s: System, n: System) {
    && n == s.(rows := n.rows, hist := s.hist.(caps := n.hist.caps, lowered := n.hist.lowered))
    && n.rows.attempts == s.rows.attempts
    && Consistent(n.rows) && Evolves(s.rows, n.rows)
  }

  lemma AdministeredExecs(s: System, n: System)
    requires ExecsInv(s) && Administered(s, n)
    ensures ExecsInv(n)
  {
    forall e | e in n.execs
      ensures ExecInv(n, n.execs[e])
    {
      assert ExecInv(s, s.execs[e]);
      Steps.RouteStays(s.rows, n.rows, s.execs[e]);
      if s.execs[e].phase.Owns().Some? {
        assert ViewOf(s.hist, s.execs[e].phase.id) == ViewOf(n.hist, s.execs[e].phase.id);
      }
    }
  }

  lemma AdministeredAttempts(s: System, n: System)
    requires AttemptsInv(s) && Administered(s, n)
    ensures AttemptsInv(n)
  {
    forall id
      ensures AttemptInv(n, id)
    {
      assert AttemptInv(s, id);
    }
  }

  lemma AdministeredKeeps(s: System, n: System)
    requires Inv(s) && Administered(s, n) && CapInv(n.rows, n.hist)
    ensures Inv(n)
  {
    AdministeredExecs(s, n);
    AdministeredAttempts(s, n);
    GrantsRise(s.rows, n.rows, s.hist.granted);
  }

  lemma SamePressure(t: Rows, u: Rows, owner: QuotaOwnerId)
    requires t.attempts == u.attempts
    ensures Pressure(t, owner) == Pressure(u, owner)
  {
    assert Charged(t, owner) == Charged(u, owner);
  }

  lemma CapsStay(t: Rows, u: Rows, h: History)
    requires CapInv(t, h) && t.attempts == u.attempts && t.policies == u.policies
    ensures CapInv(u, h)
  {
    forall owner
      ensures Pressure(u, owner) <= CapOf(h, owner)
    {
      SamePressure(t, u, owner);
    }
  }

  lemma CapsFollow(t: Rows, h: History, op: AdminOp, now: nat)
    requires CapInv(t, h) && op.PutPolicyOp?
    ensures CapInv(Administer(t, op, now), Recap(h, t, op))
  {
    var u, k := Administer(t, op, now), Recap(h, t, op);
    forall owner
      ensures Pressure(u, owner) <= CapOf(k, owner)
    {
      SamePressure(t, u, owner);
      assert Pressure(t, owner) <= CapOf(h, owner);
    }
  }

  /** Administration never writes an attempt, and only a policy operation writes a policy. */
  lemma AdministerLeaves(t: Rows, op: AdminOp, now: nat)
    ensures Administer(t, op, now).attempts == t.attempts
    ensures !op.PutPolicyOp? ==> Administer(t, op, now).policies == t.policies
  {
  }

  lemma AdministerKeepsRows(t: Rows, op: AdminOp, now: nat)
    requires Consistent(t)
    ensures var u := Administer(t, op, now); Consistent(u) && Evolves(t, u) && u.attempts == t.attempts
    ensures !op.PutPolicyOp? ==> Administer(t, op, now).policies == t.policies
  {
    AdministerLeaves(t, op, now);
    hide Consistent, Evolves, PutAccount, PutPolicy, Observe, SetAccountEnabled, DisableUnenrolled, Bind, CloseBinding,
         AdvanceCredential;
    match op
    case PutAccountOp(account) => PutAccountKeeps(t, account);
    case PutPolicyOp(policy) => PolicyKeeps(t, policy);
    case ObserveOp(observation) => ObserveKeeps(t, observation);
    case AdvanceOp(reference) => CredentialKeeps(t, reference);
    case EnableOp(id, enabled) => EnableKeeps(t, id, enabled);
    case FenceOp(enrolled) => FenceKeeps(t, enrolled);
    case BindOp(p, intent, uuid) => BindKeeps(t, p, intent, now, uuid);
    case CloseOp(p, binding) => CloseKeeps(t, p, binding, now);
  }

  lemma AdminKeeps(s: System, op: AdminOp, reply: Reply)
    requires Inv(s)
    ensures Inv(Step(s, Admin(op, reply)))
  {
    var n := Step(s, Admin(op, reply));
    if s.up && !reply.Refused? {
      AdministerKeepsRows(s.rows, op, s.clock);
      if op.PutPolicyOp? {
        CapsFollow(s.rows, s.hist, op, s.clock);
      } else {
        CapsStay(s.rows, n.rows, s.hist);
      }
      AdministeredKeeps(s, n);
    }
  }

  /** An execution that owns nothing may go anywhere that owns nothing. */
  lemma PutFreeKeeps(s: System, e: ExecId, y: Exec)
    requires Inv(s) && s.up && (e in s.execs ==> s.execs[e].phase.Owns().None?)
    requires y.phase.Owns().None? && ChunksInv(y) && RouteInv(s.rows, y)
    ensures Inv(Put(s, e, y))
  {
    var n := Put(s, e, y);
    assert ExecsInv(n) by {
      forall f | f in n.execs
        ensures ExecInv(n, n.execs[f])
      {
        assert f != e ==> ExecInv(s, s.execs[f]);
      }
    }
    assert AttemptsInv(n) by {
      forall id
        ensures AttemptInv(n, id)
      {
        assert AttemptInv(s, id);
      }
    }
  }

  lemma ArriveKeeps(s: System, e: ExecId, p: Principal, session: Option<ClientSessionId>, admission: Admission)
    requires Inv(s)
    ensures Inv(Step(s, Arrive(e, p, session, admission)))
  {
    if s.up && e !in s.execs {
      var n := Step(s, Arrive(e, p, session, admission));
      PutFreeKeeps(s, e, n.execs[e]);
    }
  }

  lemma LookupKeeps(s: System, e: ExecId, x: Exec)
    requires Steps.Here(s, e, x) && x.phase.Arrived? && x.session.Some?
    ensures Inv(LookUp(s, e, x))
  {
    var found := SessionBindings(s.rows, x.principal.id, x.session.value);
    if found != {} {
      assert BindingAgrees(Least(found), s.rows.bindings[Least(found)], s.rows.accounts.Keys);
    }
    assert ExecInv(s, x);
    PutFreeKeeps(s, e, LookUp(s, e, x).execs[e]);
  }

  lemma BoundRows(s: System, p: Principal, intent: CreateBinding, uuid: BindingId, reply: Reply)
    requires Inv(s)
    ensures Inv(s.(rows := Applied(s.rows, Bind(s.rows, p, intent, s.clock, uuid), reply)))
  {
    var o := Bind(s.rows, p, intent, s.clock, uuid);
    var after := s.(rows := Applied(s.rows, o, reply));
    BindKeeps(s.rows, p, intent, s.clock, uuid);
    EvolvesReflexively(s.rows);
    CapsStay(s.rows, after.rows, s.hist);
    AdministeredKeeps(s, after);
  }

  lemma ChooseKeeps(s: System, e: ExecId, x: Exec, pool: PoolId, product: Product, pin: Option<AccountId>,
      uuid: BindingId, reply: Reply)
    requires Steps.Here(s, e, x) && x.phase.Unbound? && x.session.Some?
    ensures Inv(ChooseBinding(s, e, x, pool, product, pin, uuid, reply))
  {
    var intent := ThreadIntent(x.session.value, pool, product, pin);
    var o := Bind(s.rows, x.principal, intent, s.clock, uuid);
    var after := s.(rows := Applied(s.rows, o, reply));
    BoundRows(s, x.principal, intent, uuid, reply);
    assert ExecInv(after, x);
    if o.result.Ok? {
      BindFinds(s.rows, x.principal, intent, s.clock, uuid);
    }
    hide Inv;
    PutFreeKeeps(after, e, ChooseBinding(s, e, x, pool, product, pin, uuid, reply).execs[e]);
  }

  lemma FreeKeeps(s: System, e: ExecId, x: Exec, y: Exec)
    requires Steps.Here(s, e, x) && x.phase.Owns().None?
    requires y == x.(phase := Ended, clean := y.clean) || y == x.(connected := false)
    ensures Inv(Put(s, e, y))
  {
    assert ExecInv(s, x);
    PutFreeKeeps(s, e, y);
  }

  // ------------------------------------------------------------------- admission

  ghost predicate Claimed(s: System, n: System, a: Attempt) {
    && a.id !in s.rows.attempts && a.state.Reserved? && a.updatedAt == s.clock
    && n == s.(rows := InsertAttempt(s.rows, a), hist := s.hist.(granted := s.hist.granted + [a.credential]))
  }

  lemma ClaimedAttempts(s: System, n: System, a: Attempt)
    requires AttemptsInv(s) && Claimed(s, n, a)
    ensures AttemptsInv(n)
  {
    forall id
      ensures AttemptInv(n, id)
    {
      assert AttemptInv(s, id);
    }
  }

  lemma ClaimedExecs(s: System, n: System, a: Attempt)
    requires ExecsInv(s) && Claimed(s, n, a)
    ensures ExecsInv(n)
  {
    forall e | e in n.execs
      ensures ExecInv(n, n.execs[e])
    {
      assert ExecInv(s, s.execs[e]);
    }
  }

  /** The claim is durable before anyone holds it. */
  lemma ClaimKeeps(s: System, n: System, a: Attempt)
    requires Inv(s) && Claimed(s, n, a)
    requires Consistent(n.rows) && Evolves(s.rows, n.rows)
    requires a.quotaOwner in s.rows.policies
    requires Pressure(s.rows, a.quotaOwner) < s.rows.policies[a.quotaOwner].maxConcurrency
    requires Floor(s.rows, a.credential.id) == Some(a.credential.generation)
    ensures Inv(n)
  {
    ClaimedAttempts(s, n, a);
    ClaimedExecs(s, n, a);
    ClaimCaps(s.rows, a, s.hist);
    GrantsExtend(s.rows, n.rows, s.hist.granted, a.credential);
    hide AttemptsInv, ExecsInv, CapInv, GrantInv, Consistent, OwnersInv;
  }

  lemma ClaimCaps(t: Rows, a: Attempt, h: History)
    requires CapInv(t, h) && a.id !in t.attempts && a.state.Reserved?
    requires a.quotaOwner in t.policies && Pressure(t, a.quotaOwner) < t.policies[a.quotaOwner].maxConcurrency
    ensures CapInv(InsertAttempt(t, a), h)
  {
    forall owner
      ensures Pressure(InsertAttempt(t, a), owner) <= CapOf(h, owner)
    {
      InsertRaisesPressure(t, a, owner);
    }
  }

  lemma GrantsExtend(t: Rows, u: Rows, granted: seq<CredentialRef>, c: CredentialRef)
    requires GrantInv(t, granted) && u.credentials == t.credentials && u.watermarks == t.watermarks
    requires Floor(t, c.id) == Some(c.generation)
    ensures GrantInv(u, granted + [c])
  {
    forall i | 0 <= i < |granted|
      ensures granted[i].id == c.id ==> granted[i].generation <= c.generation
      ensures Raises(Some(granted[i].generation), Floor(u, granted[i].id))
    {
      assert Raises(Some(granted[i].generation), Floor(t, granted[i].id));
      assert Floor(u, granted[i].id) == Floor(t, granted[i].id);
    }
    assert Floor(u, c.id) == Floor(t, c.id);
  }

  /** Whoever learns of a fresh claim is its only owner. */
  lemma TakeKeeps(s: System, e: ExecId, x: Exec, id: AttemptId)
    requires Steps.Here(s, e, x) && x.phase.Bound?
    requires id in s.rows.attempts && s.rows.attempts[id].state.Reserved? && ViewOf(s.hist, id) == UNTOUCHED
    requires s.rows.attempts[id].binding == x.admission.binding
    requires forall f :: f in s.execs ==> s.execs[f].phase.Owns() != Some(id)
    ensures Inv(Enter(s, e, x, Prepared(id)))
  {
    var n := Enter(s, e, x, Prepared(id));
    TakenExec(s, e, x, id);
    hide RowInv, PhaseInv, ChunksInv, RouteInv;
    assert AttemptsInv(n) by {
      forall other
        ensures AttemptInv(n, other)
      {
        assert AttemptInv(s, other);
      }
    }
    assert ExecsInv(n) by {
      forall f | f in n.execs
        ensures ExecInv(n, n.execs[f])
      {
        if f != e { assert ExecInv(s, s.execs[f]); }
      }
    }
  }

  lemma TakenExec(s: System, e: ExecId, x: Exec, id: AttemptId)
    requires Steps.Here(s, e, x) && x.phase.Bound?
    requires id in s.rows.attempts && s.rows.attempts[id].state.Reserved? && ViewOf(s.hist, id) == UNTOUCHED
    requires s.rows.attempts[id].binding == x.admission.binding
    ensures var n := Enter(s, e, x, Prepared(id)); ExecInv(n, n.execs[e])
  {
    assert ExecInv(s, x) && AttemptInv(s, id);
    hide Consistent, OwnersInv, CapInv, GrantInv;
  }

  lemma AdmitKeeps(s: System, e: ExecId, x: Exec, uuid: AttemptId, reply: Reply)
    requires Steps.Here(s, e, x) && x.phase.Bound?
    ensures Inv(AdmitExec(s, e, x, uuid, reply))
  {
    var o := Admit(s.rows, x.principal, x.admission, s.clock, uuid);
    if reply.Refused? || o.result.Err? {
      FreeKeeps(s, e, x, Answered(x, reply).(phase := Ended));
      return;
    }
    var a := o.result.value.attempt;
    AdmitGrants(s.rows, x.principal, x.admission, s.clock, uuid);
    InsertKeeps(s.rows, a);
    var after := s.(rows := o.rows, hist := s.hist.(granted := s.hist.granted + [a.credential]));
    assert AttemptInv(s, a.id);
    ClaimKeeps(s, after, a);
    if reply.Delivered? {
      forall f | f in s.execs
        ensures s.execs[f].phase.Owns() != Some(a.id)
      {
        assert ExecInv(s, s.execs[f]);
      }
      TakeKeeps(after, e, x, a.id);
    } else {
      FreeKeeps(after, e, x, Answered(x, reply).(phase := Ended));
    }
  }

  // ------------------------------------------------------------- clock, crash, operator

  lemma TickKeeps(s: System, to: nat)
    requires Inv(s)
    ensures Inv(Step(s, Tick(to)))
  {
    var n := Step(s, Tick(to));
    assert AttemptsInv(n) by {
      forall id
        ensures AttemptInv(n, id)
      {
        assert AttemptInv(s, id);
        assert ViewOf(n.hist, id) == ViewOf(s.hist, id);
      }
    }
    assert ExecsInv(n) by {
      forall e | e in n.execs
        ensures ExecInv(n, n.execs[e])
      {
        assert ExecInv(s, s.execs[e]);
        if s.execs[e].phase.Owns().Some? {
          assert ViewOf(n.hist, s.execs[e].phase.id) == ViewOf(s.hist, s.execs[e].phase.id);
        }
      }
    }
  }

  lemma RestartKeeps(s: System, reply: Reply)
    requires Inv(s)
    ensures Inv(Step(s, Restart(reply)))
  {
    var n := Step(s, Restart(reply));
    if s.up || reply.Refused? { return; }
    assert n == s.(rows := Recover(s.rows, s.clock).rows, up := n.up);
    RecoverKeeps(s.rows, s.clock);
    RecoveredAttempts(s, n);
    RecoveredRest(s, n);
    hide Consistent, Evolves, AttemptsInv, CapInv, GrantInv, Recover;
  }

  lemma RecoveredAttempts(s: System, n: System)
    requires Consistent(s.rows) && AttemptsInv(s) && n == s.(rows := Recover(s.rows, s.clock).rows, up := n.up)
    ensures AttemptsInv(n)
  {
    hide RowInv, RecoveredRow;
    assert n.hist == s.hist && n.rows.attempts.Keys == s.rows.attempts.Keys;
    forall id
      ensures AttemptInv(n, id)
    {
      assert AttemptInv(s, id);
      if id in s.rows.attempts {
        assert AttemptAgrees(id, s.rows.attempts[id], s.rows.bindings.Keys);
        RecoveredOne(s.rows.attempts[id], n.rows.attempts[id], ViewOf(s.hist, id), s.hist.monotone, s.clock);
      }
    }
  }

  lemma RecoveredOne(r: AttemptRow, u: AttemptRow, v: View, monotone: bool, clock: nat)
    requires RowInv(r, v, monotone, clock) && r.data.state == r.state && u == RecoveredRow(r, clock)
    ensures RowInv(u, v, monotone, clock)
  {
  }

  lemma RecoveredRest(s: System, n: System)
    requires Inv(s) && n == s.(rows := n.rows, up := n.up) && Evolves(s.rows, n.rows) && ReleasesOnly(s.rows, n.rows)
    requires n.rows.policies == s.rows.policies
    ensures CapInv(n.rows, n.hist) && GrantInv(n.rows, n.hist.granted)
  {
    hide AttemptsInv, ExecsInv, Consistent;
    CapsReleased(s.rows, n.rows, s.hist);
    GrantsRise(s.rows, n.rows, s.hist.granted);
  }

  lemma CrashKeeps(s: System)
    requires Inv(s)
    ensures Inv(Step(s, Crash))
  {
    assert AttemptsInv(Step(s, Crash)) by {
      forall id
        ensures AttemptInv(Step(s, Crash), id)
      {
        assert AttemptInv(s, id);
      }
    }
  }

  lemma ResolveTouches(t: Rows, p: Principal, id: AttemptId, outcome: Settlement, rationale: string, now: Timestamp)
    requires Consistent(t)
    ensures var o := ResolveAttempt(t, p, id, outcome, rationale, now);
      o.result.Ok? ==> id in t.attempts && Steps.Touches(t, o.rows, id)
  {
    var o := ResolveAttempt(t, p, id, outcome, rationale, now);
    if o.result.Ok? {
      assert AttemptAgrees(id, t.attempts[id], t.bindings.Keys);
      Steps.SaveTouches(t, o.result.value);
    }
  }

  /** An operator closes one uncertain attempt, which no live execution can still settle cleanly. */
  ghost predicate ClosedByHand(s: System, n: System, id: AttemptId) {
    && n == s.(rows := n.rows, hist := s.hist.(resolved := s.hist.resolved + {id}))
    && RowsLocal(s.rows, n.rows, id) && id in s.rows.attempts
    && s.rows.attempts[id].state.Uncertain?
    && (n.rows.attempts[id].state.Succeeded? || n.rows.attempts[id].state.Rejected?)
    && n.rows.attempts[id].binding == s.rows.attempts[id].binding
    && n.rows.attempts[id].data.updatedAt == Max(s.clock, s.rows.attempts[id].data.updatedAt)
  }

  lemma ClosedAttempts(s: System, n: System, id: AttemptId)
    requires AttemptsInv(s) && ClosedByHand(s, n, id)
    ensures AttemptsInv(n)
  {
    forall other
      ensures AttemptInv(n, other)
    {
      assert AttemptInv(s, other);
      assert other != id ==> ViewOf(n.hist, other) == ViewOf(s.hist, other);
    }
  }

  lemma ClosedExecs(s: System, n: System, id: AttemptId)
    requires ExecsInv(s) && ClosedByHand(s, n, id)
    ensures ExecsInv(n)
  {
    forall e | e in n.execs
      ensures ExecInv(n, n.execs[e])
    {
      var x := s.execs[e];
      assert ExecInv(s, x);
      if x.phase.Owns().Some? {
        if x.phase.id != id {
          assert ViewOf(n.hist, x.phase.id) == ViewOf(s.hist, x.phase.id);
        } else {
          assert x.phase.Dropping?;
        }
      }
    }
  }

  lemma ResolveKeeps(s: System, p: Principal, id: AttemptId, outcome: Settlement, rationale: string, reply: Reply)
    requires Inv(s)
    ensures Inv(Step(s, Resolve(p, id, outcome, rationale, reply)))
  {
    var o := ResolveAttempt(s.rows, p, id, outcome, rationale, s.clock);
    if !s.up || reply.Refused? || o.result.Err? { return; }
    var n := Step(s, Resolve(p, id, outcome, rationale, reply));
    ResolveTouches(s.rows, p, id, outcome, rationale, s.clock);
    ResolveCloses(s, n, p, id, outcome, rationale);
    hide Consistent, Evolves, ClosedByHand, AttemptsInv, ExecsInv, CapInv, GrantInv, ResolveAttempt;
    ClosedAttempts(s, n, id);
    ClosedExecs(s, n, id);
    ClosedRest(s, n, id);
  }

  lemma ResolveCloses(s: System, n: System, p: Principal, id: AttemptId, outcome: Settlement, rationale: string)
    requires Consistent(s.rows) && Steps.Touches(s.rows, n.rows, id) && id in s.rows.attempts
    requires var o := ResolveAttempt(s.rows, p, id, outcome, rationale, s.clock);
      o.result.Ok? && n == s.(rows := o.rows, hist := s.hist.(resolved := s.hist.resolved + {id}))
    ensures ClosedByHand(s, n, id)
  {
    assert AttemptAgrees(id, s.rows.attempts[id], s.rows.bindings.Keys);
  }

  lemma ClosedRest(s: System, n: System, id: AttemptId)
    requires Inv(s) && ClosedByHand(s, n, id) && Steps.Touches(s.rows, n.rows, id)
    ensures CapInv(n.rows, n.hist) && GrantInv(n.rows, n.hist.granted) && Consistent(n.rows)
  {
    hide AttemptsInv, ExecsInv, Consistent;
    CapsReleased(s.rows, n.rows, s.hist);
    GrantsRise(s.rows, n.rows, s.hist.granted);
    assert CapInv(n.rows, n.hist);
  }

  // ------------------------------------------------------------------------- all events

  lemma ActKeeps(s: System, e: ExecId, x: Exec, ev: Event)
    requires Steps.Here(s, e, x)
    requires ev.Own()
    ensures Inv(Act(s, e, x, ev))
  {
    hide Inv;
    match ev
    case Lookup(_) => if x.phase.Arrived? && x.session.Some? { LookupKeeps(s, e, x); }
    case Choose(_, pool, product, pin, uuid, reply) =>
      if x.phase.Unbound? && x.session.Some? { ChooseKeeps(s, e, x, pool, product, pin, uuid, reply); }
    case Decline(_) => if x.phase.Owns().None? { FreeKeeps(s, e, x, x.(phase := Ended)); }
    case Admitting(_, uuid, reply) => if x.phase.Bound? { AdmitKeeps(s, e, x, uuid, reply); }
    case LoadSecret(_, loaded) => if x.phase.Prepared? { Steps.LoadKeeps(s, e, x, loaded); }
    case Dispatch(_, reply) => if x.phase.Loaded? { Steps.DispatchKeeps(s, e, x, reply); }
    case Invoke(_) => if x.phase.Ready? { Steps.BeginSendKeeps(s, e, x); }
    case Transmit(_) => if x.phase.Sending? && x.phase.id !in s.hist.upstream { Steps.ReachKeeps(s, e, x); }
    case FailSend(_, c) =>
      if x.phase.Sending? && (c.NotDispatched? ==> x.phase.id !in s.hist.upstream) { Steps.EndSendKeeps(s, e, x, c); }
    case Respond(_) => if x.phase.Sending? { Steps.PhaseKeeps(s, e, x, Replied(x.phase.id)); }
    case Stream(_, reply) => if x.phase.Replied? { Steps.StreamKeeps(s, e, x, reply); }
    case Yield(_, item) => if x.phase.Draining? { Steps.PullKeeps(s, e, x, item); }
    case Finish(_, reply) => if x.phase.Settling() { Steps.FinishKeeps(s, e, x, reply); }
    case Hangup(_) =>
      if x.phase.Owns().Some? { Steps.HangupKeeps(s, e, x); } else { FreeKeeps(s, e, x, x.(connected := false)); }
    case Abort(_) => if x.phase.Guarded() { Steps.AbortKeeps(s, e, x); }
    case Drop(_, reply) => if x.phase.Dropping? { Steps.DropKeeps(s, e, x, reply); }
  }

  lemma StepKeeps(s: System, ev: Event)
    requires Inv(s)
    ensures Inv(Step(s, ev))
  {
    hide Inv;
    match ev
    case Tick(to) => TickKeeps(s, to);
    case Crash => CrashKeeps(s);
    case Restart(reply) => RestartKeeps(s, reply);
    case Admin(op, reply) => AdminKeeps(s, op, reply);
    case Resolve(p, id, outcome, rationale, reply) => ResolveKeeps(s, p, id, outcome, rationale, reply);
    case Arrive(e, p, session, admission) => ArriveKeeps(s, e, p, session, admission);
    case _ =>
      if s.up && ev.e in s.execs { ActKeeps(s, ev.e, s.execs[ev.e], ev); }
  }

  lemma StartHolds()
    ensures Inv(START)
  {
    forall id
      ensures AttemptInv(START, id)
    {
    }
    forall owner
      ensures Pressure(EMPTY, owner) == 0
    {
      assert Charged(EMPTY, owner) == {};
    }
  }

  /** Every state of every run, however executions interleave, fail and crash. */
  lemma {:induction false} AlwaysHolds(events: seq<Event>)
    ensures Inv(After(events))
  {
    if events == [] {
      StartHolds();
    } else {
      AlwaysHolds(events[..|events| - 1]);
      StepKeeps(After(events[..|events| - 1]), events[|events| - 1]);
    }
  }
}
