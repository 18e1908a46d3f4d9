/** The daemon over time: many executions interleaving on one ledger, an upstream
    transport that may do anything it is allowed to, and a process that may die
    between any two steps. A run is any sequence of events. */
module System {
  import opened Domain
  import opened Tables


  type ExecId = nat

  /** What a caller learns of a transaction: its result, that it did not happen,
      or a failure although it committed. */
  datatype Reply = Delivered | Refused | Lost

  datatype Item =
    | Data(bytes: Bytes)
    | Terminal(bytes: Bytes, outcome: Settlement)
    | Finished(outcome: Settlement)
    | Broken
    | Eof

  /** Where an execution stands; from `Prepared` on it owns the attempt's guard. */
  datatype Phase =
    | Arrived                                                      // a native thread, binding not looked up
    | Unbound                                                      // the lookup found none
    | Bound                                                        // about to be admitted
    | Prepared(id: AttemptId)                                      // admitted; dropping releases
    | Unloaded(id: AttemptId)                                      // the secret could not be loaded
    | Loaded(id: AttemptId)                                        // dropping now fences
    | Ready(id: AttemptId)                                         // dispatch intent is durable
    | Sending(id: AttemptId)                                       // the transport call began
    | SendFailed(id: AttemptId, certainty: DispatchCertainty)
    | Replied(id: AttemptId)                                       // upstream answered
    | Draining(id: AttemptId)
    | Proven(id: AttemptId, outcome: Settlement, last: Option<Bytes>)  // terminal evidence in hand
    | Interrupted(id: AttemptId)                                   // stream broke or ended without evidence
    | Dropping(id: AttemptId, outcome: Settlement, at: Timestamp)  // detached settlement of a dropped guard
    | Ended
  {
    /** The attempt whose guard this execution holds. */
    function Owns(): Option<AttemptId> {
      if Arrived? || Unbound? || Bound? || Ended? then None else Some(this.id)
    }

    predicate Guarded() {
      Owns().Some? && !Dropping?
    }

    predicate BeforeStream() {
      !Draining? && !Interrupted? && !Proven? && !Dropping? && !Ended?
    }

    /** What the guard settles if it is dropped here. */
    function OnDrop(): Settlement {
      if Prepared? || Unloaded? then Settlement.NotDispatched else Settlement.Uncertain
    }

    predicate Settling() {
      Unloaded? || SendFailed? || Proven? || Interrupted?
    }

    /** What the execution settles explicitly here. */
    function Verdict(): Settlement {
      match this
      case Unloaded(_) => Settlement.NotDispatched
      case SendFailed(_, c) => if c.NotDispatched? then Settlement.NotDispatched else Settlement.Uncertain
      case Proven(_, outcome, _) => outcome
      case _ => Settlement.Uncertain
    }
  }

  datatype Exec = Exec(
    principal: Principal,
    session: Option<ClientSessionId>,  // native thread identity, when the drop-in surface was used
    admission: Admission,
    resolved: Option<BindingId>,       // the binding this request settled on
    phase: Phase,
    clean: bool,                       // not aborted, and storage answered every call so far
    connected: bool,                   // the caller still reads
    read: seq<Bytes>,                  // chunks pulled from upstream
    offered: seq<Bytes>,               // chunks handed to the caller
    terminal: bool)                    // the chunk that proves the outcome was handed out

  /** What happened, as an omniscient observer would record it. */
  datatype History = History(
    invoked: seq<AttemptId>,               // transport calls, in order
    upstream: seq<AttemptId>,              // requests that reached the provider, in order
    evidence: map<AttemptId, Settlement>,  // provider outcomes the process saw
    unloaded: set<AttemptId>,
    certified: set<AttemptId>,             // transport certificates of non-dispatch
    resolved: set<AttemptId>,              // operator resolutions
    delivered: set<AttemptId>,             // attempts whose terminal chunk was handed out
    finished: set<AttemptId>,              // executions that ended cleanly
    granted: seq<CredentialRef>,           // credentials of admitted attempts, in order
    caps: map<QuotaOwnerId, nat>,          // the largest cap ever set
    lowered: set<QuotaOwnerId>,            // owners whose cap was ever lowered
    monotone: bool)                        // the clock never went back

  datatype System = System(rows: Rows, clock: nat, up: bool, execs: map<ExecId, Exec>, hist: History)

  const START :=
    System(EMPTY, 0, false, map[], History([], [], map[], {}, {}, {}, {}, {}, [], map[], {}, true))

  datatype AdminOp =
    | PutAccountOp(account: Account)
    | PutPolicyOp(policy: QuotaPolicy)
    | ObserveOp(observation: UsageObservation)
    | AdvanceOp(reference: CredentialRef)
    | EnableOp(target: AccountId, enabled: bool)
    | FenceOp(enrolled: set<AccountId>)
    | BindOp(who: Principal, intent: CreateBinding, uuid: BindingId)
    | CloseOp(who: Principal, binding: BindingId)

  datatype Event =
    | Tick(to: nat)
    | Crash
    | Restart(reply: Reply)
    | Admin(op: AdminOp, reply: Reply)
    | Resolve(who: Principal, id: AttemptId, outcome: Settlement, rationale: string, reply: Reply)
    | Arrive(e: ExecId, principal: Principal, session: Option<ClientSessionId>, admission: Admission)
    | Lookup(e: ExecId)
    | Choose(e: ExecId, pool: PoolId, product: Product, pin: Option<AccountId>, uuid: BindingId, reply: Reply)
    | Decline(e: ExecId)
    | Admitting(e: ExecId, uuid: AttemptId, reply: Reply)
    | LoadSecret(e: ExecId, loaded: bool)
    | Dispatch(e: ExecId, reply: Reply)
    | Invoke(e: ExecId)
    | Transmit(e: ExecId)
    | FailSend(e: ExecId, certainty: DispatchCertainty)
    | Respond(e: ExecId)
    | Stream(e: ExecId, reply: Reply)
    | Yield(e: ExecId, item: Item)
    | Finish(e: ExecId, reply: Reply)
    | Hangup(e: ExecId)
    | Abort(e: ExecId)
    | Drop(e: ExecId, reply: Reply)
  {
    /** A step of one execution, rather than of the whole process. */
    predicate Own() {
      !(Tick? || Crash? || Restart? || Admin? || Resolve? || Arrive?)
    }
  }

  // ---------------------------------------------------------------- building blocks

  function Applied<T>(t: Rows, o: Outcome<T>, reply: Reply): Rows {
    if reply.Refused? then t else o.rows
  }

  function Answer<T>(o: Outcome<T>, reply: Reply): Result<T> {
    if reply.Delivered? then o.result else Err(NewError(StorageUnavailable))
  }

  function Put(s: System, e: ExecId, x: Exec): System { s.(execs := s.execs[e := x]) }

  function Enter(s: System, e: ExecId, x: Exec, phase: Phase): System { Put(s, e, x.(phase := phase)) }

  /** The guard is dropped: its settlement is spawned with the clock read here. */
  function DropGuard(s: System, e: ExecId, x: Exec): System {
    if x.phase.Guarded() then Enter(s, e, x, Dropping(x.phase.id, x.phase.OnDrop(), s.clock)) else s
  }

  /** The guard is disarmed. */
  function Leave(s: System, e: ExecId, x: Exec, id: AttemptId): System {
    Enter(s, e, x, Ended).(hist := s.hist.(finished := s.hist.finished + if x.clean then {id} else {}))
  }

  function Answered(x: Exec, reply: Reply): Exec { x.(clean := x.clean && reply.Delivered?) }

  function Offer(x: Exec, chunk: Bytes): Exec {
    if x.connected then x.(offered := x.offered + [chunk]) else x
  }

  ghost function Administer(t: Rows, op: AdminOp, now: nat): Rows {
    match op
    case PutAccountOp(account) => PutAccount(t, account).rows
    case PutPolicyOp(policy) => PutPolicy(t, policy).rows
    case ObserveOp(observation) => Observe(t, observation).rows
    case AdvanceOp(reference) => AdvanceCredential(t, reference).rows
    case EnableOp(id, enabled) => SetAccountEnabled(t, id, enabled).rows
    case FenceOp(enrolled) => DisableUnenrolled(t, enrolled).rows
    case BindOp(p, intent, uuid) => Bind(t, p, intent, now, uuid).rows
    case CloseOp(p, binding) => CloseBinding(t, p, binding, now).rows
  }

  function CapOf(h: History, owner: QuotaOwnerId): nat { if owner in h.caps then h.caps[owner] else 0 }

  /** The cap record follows every accepted policy. */
  function Recap(h: History, t: Rows, op: AdminOp): History {
    if op.PutPolicyOp? && op.policy.maxConcurrency > 0 then
      var owner := op.policy.owner;
      var lowered := owner in t.policies && op.policy.maxConcurrency < t.policies[owner].maxConcurrency;
      h.(caps := h.caps[owner := Max(CapOf(h, owner), op.policy.maxConcurrency)],
         lowered := h.lowered + if lowered then {owner} else {})
    else h
  }

  // -------------------------------------------------------------------------- steps

  /** An event that is not enabled changes nothing. */
  ghost function Step(s: System, ev: Event): System {
    match ev
    case Tick(to) => s.(clock := to, hist := s.hist.(monotone := s.hist.monotone && s.clock <= to))
    case Crash => s.(up := false, execs := map[])
    case Restart(reply) =>
      if s.up then s
      else s.(rows := Applied(s.rows, Recover(s.rows, s.clock), reply), up := reply.Delivered?)
    case Admin(op, reply) =>
      if !s.up || reply.Refused? then s
      else s.(rows := Administer(s.rows, op, s.clock), hist := Recap(s.hist, s.rows, op))
    case Resolve(p, id, outcome, rationale, reply) =>
      var o := ResolveAttempt(s.rows, p, id, outcome, rationale, s.clock);
      if !s.up || reply.Refused? || o.result.Err? then s
      else s.(rows := o.rows, hist := s.hist.(resolved := s.hist.resolved + {id}))
    case Arrive(e, p, session, admission) =>
      if !s.up || e in s.execs then s
      else
        var resolved := if session.None? then Some(admission.binding) else None;
        var phase := if session.None? then Bound else Arrived;
        Put(s, e, Exec(p, session, admission, resolved, phase, true, true, [], [], false))
    case _ =>
      if s.up && ev.e in s.execs then Act(s, ev.e, s.execs[ev.e], ev) else s
  }

  /** One step of one execution. */
  ghost function Act(s: System, e: ExecId, x: Exec, ev: Event): System
    requires ev.Own()
  {
    match ev
    case Lookup(_) => if x.phase.Arrived? && x.session.Some? then LookUp(s, e, x) else s
    case Choose(_, pool, product, pin, uuid, reply) =>
      if x.phase.Unbound? && x.session.Some? then ChooseBinding(s, e, x, pool, product, pin, uuid, reply) else s
    case Decline(_) => if x.phase.Owns().None? then Enter(s, e, x, Ended) else s
    case Admitting(_, uuid, reply) => if x.phase.Bound? then AdmitExec(s, e, x, uuid, reply) else s
    case LoadSecret(_, loaded) => if x.phase.Prepared? then Load(s, e, x, loaded) else s
    case Dispatch(_, reply) => if x.phase.Loaded? then MarkDispatch(s, e, x, reply) else s
    case Invoke(_) => if x.phase.Ready? then BeginSend(s, e, x) else s
    case Transmit(_) => if x.phase.Sending? && x.phase.id !in s.hist.upstream then Reach(s, x) else s
    case FailSend(_, certainty) =>
      // Certificates are truthful: a request that reached the provider is never certified unsent.
      if x.phase.Sending? && (certainty.NotDispatched? ==> x.phase.id !in s.hist.upstream)
      then EndSend(s, e, x, certainty) else s
    case Respond(_) => if x.phase.Sending? then Enter(s, e, x, Replied(x.phase.id)) else s
    case Stream(_, reply) => if x.phase.Replied? then MarkStream(s, e, x, reply) else s
    case Yield(_, item) => if x.phase.Draining? then Pull(s, e, x, item) else s
    case Finish(_, reply) => if x.phase.Settling() then SettleExec(s, e, x, reply) else s
    case Hangup(_) => Put(s, e, x.(connected := false))
    case Abort(_) => if x.phase.Guarded() then DropGuard(s, e, x.(clean := false)) else s
    case Drop(_, reply) => if x.phase.Dropping? then SettleDropped(s, e, x, reply) else s
  }

  ghost function LookUp(s: System, e: ExecId, x: Exec): System
    requires x.session.Some?
  {
    match SessionBinding(s.rows, x.principal, x.session.value)
    case Some(b) => Put(s, e, x.(phase := Bound, resolved := Some(b.id), admission := x.admission.(binding := b.id)))
    case None => Enter(s, e, x, Unbound)
  }

  /** Affinity only: model and effort pass through per request. */
  function ThreadIntent(session: ClientSessionId, pool: PoolId, product: Product, pin: Option<AccountId>): CreateBinding {
    CreateBinding(session, pool, product, None, pin, None)
  }

  ghost function ChooseBinding(s: System, e: ExecId, x: Exec, pool: PoolId, product: Product, pin: Option<AccountId>,
      uuid: BindingId, reply: Reply): System
    requires x.session.Some?
  {
    var o := Bind(s.rows, x.principal, ThreadIntent(x.session.value, pool, product, pin), s.clock, uuid);
    var after := s.(rows := Applied(s.rows, o, reply));
    match Answer(o, reply)
    case Ok(b) =>
      Put(after, e, x.(phase := Bound, resolved := Some(b.id), admission := x.admission.(binding := b.id)))
    case Err(_) => Enter(after, e, x, Ended)
  }

  ghost function AdmitExec(s: System, e: ExecId, x: Exec, uuid: AttemptId, reply: Reply): System {
    var o := Admit(s.rows, x.principal, x.admission, s.clock, uuid);
    var after := if reply.Refused? || o.result.Err? then s
                 else s.(rows := o.rows, hist := s.hist.(granted := s.hist.granted + [o.result.value.attempt.credential]));
    match Answer(o, reply)
    case Ok(prepared) => Enter(after, e, x, Prepared(prepared.attempt.id))
    case Err(_) => Enter(after, e, Answered(x, reply), Ended)
  }

  function Load(s: System, e: ExecId, x: Exec, loaded: bool): System
    requires x.phase.Prepared?
  {
    var id := x.phase.id;
    if loaded then Enter(s, e, x, Loaded(id))
    else Enter(s, e, x, Unloaded(id)).(hist := s.hist.(unloaded := s.hist.unloaded + {id}))
  }

  function MarkDispatch(s: System, e: ExecId, x: Exec, reply: Reply): System
    requires x.phase.Loaded?
  {
    var o := MarkDispatching(s.rows, x.phase.id, s.clock);
    var after := s.(rows := Applied(s.rows, o, reply));
    if Answer(o, reply).Ok? then Enter(after, e, x, Ready(x.phase.id)) else DropGuard(after, e, Answered(x, reply))
  }

  function BeginSend(s: System, e: ExecId, x: Exec): System
    requires x.phase.Ready?
  {
    Enter(s, e, x, Sending(x.phase.id)).(hist := s.hist.(invoked := s.hist.invoked + [x.phase.id]))
  }

  function Reach(s: System, x: Exec): System
    requires x.phase.Sending?
  {
    s.(hist := s.hist.(upstream := s.hist.upstream + [x.phase.id]))
  }

  function EndSend(s: System, e: ExecId, x: Exec, certainty: DispatchCertainty): System
    requires x.phase.Sending?
  {
    var id := x.phase.id;
    Enter(s, e, x, SendFailed(id, certainty))
      .(hist := s.hist.(certified := s.hist.certified + if certainty.NotDispatched? then {id} else {}))
  }

  function MarkStream(s: System, e: ExecId, x: Exec, reply: Reply): System
    requires x.phase.Replied?
  {
    var o := MarkStreaming(s.rows, x.phase.id, s.clock);
    var after := s.(rows := Applied(s.rows, o, reply));
    if Answer(o, reply).Ok? then Enter(after, e, x, Draining(x.phase.id)) else DropGuard(after, e, Answered(x, reply))
  }

  /** The drain task takes the next item of the provider's stream. */
  function Pull(s: System, e: ExecId, x: Exec, item: Item): System
    requires x.phase.Draining?
  {
    var id := x.phase.id;
    match item
    case Data(bytes) => Put(s, e, Offer(x, bytes).(read := x.read + [bytes]))
    case Terminal(bytes, outcome) => Prove(s, e, x.(read := x.read + [bytes]), outcome, Some(bytes))
    case Finished(outcome) => Prove(s, e, x, outcome, None)
    case Broken | Eof => Enter(s, e, x, Interrupted(id))
  }

  function Prove(s: System, e: ExecId, x: Exec, outcome: Settlement, last: Option<Bytes>): System
    requires x.phase.Draining?
  {
    var id := x.phase.id;
    if outcome.Evidence() then
      Enter(s, e, x, Proven(id, outcome, last)).(hist := s.hist.(evidence := s.hist.evidence[id := outcome]))
    else DropGuard(s, e, x)  // an invalid completion signal proves nothing
  }

  /** `guard.finish`: settle, and only then disarm and hand out the final chunk. */
  function SettleExec(s: System, e: ExecId, x: Exec, reply: Reply): System
    requires x.phase.Settling()
  {
    var id := x.phase.id;
    var o := Settle(s.rows, id, x.phase.Verdict(), s.clock);
    var after := s.(rows := Applied(s.rows, o, reply));
    if Answer(o, reply).Err? then DropGuard(after, e, Answered(x, reply))
    else if x.phase.Proven? && x.phase.last.Some? && x.connected then
      var out := Leave(after, e, Offer(x, x.phase.last.value).(terminal := true), id);
      out.(hist := out.hist.(delivered := out.hist.delivered + {id}))
    else Leave(after, e, x, id)
  }

  function SettleDropped(s: System, e: ExecId, x: Exec, reply: Reply): System
    requires x.phase.Dropping?
  {
    var o := Settle(s.rows, x.phase.id, x.phase.outcome, x.phase.at);
    Leave(s.(rows := Applied(s.rows, o, reply)), e, Answered(x, reply), x.phase.id)
  }

  ghost function Run(s: System, events: seq<Event>): System {
    if events == [] then s else Step(Run(s, events[..|events| - 1]), events[|events| - 1])
  }

  /** The state after the events, from an empty database. */
  ghost function After(events: seq<Event>): System { Run(START, events) }
}
