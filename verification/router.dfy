/** One request as the router drives it: admitted, loaded, dispatched, sent and drained, with a
    guard that settles whatever is left behind. While the guard lives, storage may refuse a call
    or lose its answer; the dropped guard's settlement is answered, and the clock does not go
    back. `System` covers every other interleaving and failure. */
module Router {
  import opened Clocks
  import opened Domain
  import opened Ledger
  import T = Tables
  import System
  import S = Sse
  import X = Transport

  // ------------------------------------------------------------- one row over time

  /** The rows an admission committed, with the attempt as it stands now. */
  function Standing(t: T.Rows, a: Attempt, state: AttemptState, at: Timestamp): T.Rows {
    T.SaveAttempt(t, a.(state := state, updatedAt := at))
  }

  /** The rows hold the attempt as it was admitted. */
  predicate Holds(t: T.Rows, a: Attempt) {
    a.id in t.attempts && t.attempts[a.id].data == a && t.attempts[a.id].state == a.state
  }

  lemma AdmittedStands(t: T.Rows, p: Principal, adm: Admission, now: Timestamp, uuid: AttemptId)
    requires T.Admit(t, p, adm, now, uuid).result.Ok?
    ensures var o := T.Admit(t, p, adm, now, uuid); var a := o.result.value.attempt;
      && a.id == uuid && a.state.Reserved? && a.updatedAt == now && 0 <= now
      && Holds(o.rows, a) && o.rows == Standing(o.rows, a, AttemptState.Reserved, now)
  {
    var o := T.Admit(t, p, adm, now, uuid);
    assert o.rows.attempts == o.rows.attempts[uuid := o.rows.attempts[uuid]];
  }

  lemma AdvanceStands(t: T.Rows, a: Attempt, at: Timestamp, from: AttemptState, next: AttemptState, now: Timestamp)
    requires Holds(t, a) && 0 <= at <= now
    ensures T.Advance(Standing(t, a, from, at), a.id, from, next, now) == T.Outcome(Standing(t, a, next, now), Ok(()))
  {
  }

  /** Where a settlement leaves a row. */
  function SettledState(from: AttemptState, outcome: Settlement): AttemptState {
    if T.SettleAllowed(from, outcome.State()) then outcome.State() else from
  }

  lemma SettleStands(t: T.Rows, a: Attempt, at: Timestamp, from: AttemptState, outcome: Settlement, now: Timestamp)
    requires Holds(t, a) && 0 <= at <= now
    ensures var o := T.Settle(Standing(t, a, from, at), a.id, outcome, now); var next := SettledState(from, outcome);
      && o.rows == Standing(t, a, next, if next == from then at else now)
      && (o.result.Ok? <==> next == outcome.State())
  {
  }

  /** A settlement the attempt allows is stored exactly when the clock has not gone back. */
  lemma SettleNeedsTheClock(t: T.Rows, a: Attempt, at: Timestamp, from: AttemptState, outcome: Settlement, now: Timestamp)
    requires Holds(t, a) && 0 <= at && 0 <= now && T.SettleAllowed(from, outcome.State()) && from != outcome.State()
    ensures var o := T.Settle(Standing(t, a, from, at), a.id, outcome, now);
      && (o.result.Ok? <==> at <= now)
      && o.rows == if at <= now then Standing(t, a, outcome.State(), now) else Standing(t, a, from, at)
  {
    if at <= now { SettleStands(t, a, at, from, outcome, now); }
  }

  // ------------------------------------------------------------------- the guard

  class AttemptGuard {
    const ledger: SqliteLedger
    const clock: Clock
    const id: AttemptId
    var onDrop: Settlement
    var armed: bool

    constructor (ledger: SqliteLedger, clock: Clock, id: AttemptId)
      ensures this.ledger == ledger && this.clock == clock && this.id == id
      ensures onDrop == Settlement.NotDispatched && armed
    {
      this.ledger, this.clock, this.id := ledger, clock, id;
      onDrop, armed := Settlement.NotDispatched, true;
    }

    method Finish(outcome: Settlement, reply: System.Reply) returns (r: Result<()>)
      modifies this`armed, clock, ledger`attempts
      ensures old(clock.now) <= clock.now
      ensures var o := T.Settle(old(ledger.Rows()), id, outcome, clock.now);
        && ledger.Rows() == System.Applied(old(ledger.Rows()), o, reply)
        && (r.Ok? <==> System.Answer(o, reply).Ok?) && armed == (old(armed) && r.Err?)
        && (r.Err? ==> r.error == System.Answer(o, reply).error)
    {
      var now := clock.Now();
      if reply.Refused? { return Err(NewError(StorageUnavailable)); }
      var settled := ledger.Settle(id, outcome, now);
      if reply.Lost? { return Err(NewError(StorageUnavailable)); }
      if settled.Err? { return Err(settled.error); }
      armed := false;
      r := Ok(());
    }

    method Drop()
      modifies clock, ledger`attempts
      ensures old(clock.now) <= clock.now
      ensures ledger.Rows() == if armed then T.Settle(old(ledger.Rows()), id, onDrop, clock.now).rows
                               else old(ledger.Rows())
    {
      if armed {
        var now := clock.Now();
        var _ := ledger.Settle(id, onDrop, now);
      }
    }
  }

  // -------------------------------------------------------------- what a stream proves

  /** The outcome the first item that is not plain data proves; uncertain when it proves none. */
  function Verdict(items: seq<System.Item>): Settlement {
    if items == [] then Settlement.Uncertain
    else match items[0]
      case Data(_) => Verdict(items[1..])
      case Terminal(_, outcome) => if outcome.Evidence() then outcome else Settlement.Uncertain
      case Finished(outcome) => if outcome.Evidence() then outcome else Settlement.Uncertain
      case _ => Settlement.Uncertain
  }

  /** The chunks the caller is handed; the terminal one only once its outcome is stored. */
  function Handed(items: seq<System.Item>, stored: bool): seq<Bytes> {
    if items == [] then []
    else match items[0]
      case Data(bytes) => [bytes] + Handed(items[1..], stored)
      case Terminal(bytes, outcome) => if outcome.Evidence() && stored then [bytes] else []
      case _ => []
  }

  /** What is left of the items decides, one item at a time. */
  lemma RestAt(items: seq<System.Item>, i: nat, stored: bool)
    requires i < |items|
    ensures items[i].Data? ==>
      && Verdict(items[i..]) == Verdict(items[i + 1..])
      && Handed(items[i..], stored) == [items[i].bytes] + Handed(items[i + 1..], stored)
    ensures items[i].Terminal? ==>
      && Verdict(items[i..]) == (if items[i].outcome.Evidence() then items[i].outcome else Settlement.Uncertain)
      && Handed(items[i..], stored) == if items[i].outcome.Evidence() && stored then [items[i].bytes] else []
    ensures items[i].Finished? ==>
      && Verdict(items[i..]) == (if items[i].outcome.Evidence() then items[i].outcome else Settlement.Uncertain)
      && Handed(items[i..], stored) == []
    ensures items[i].Broken? || items[i].Eof? ==> Verdict(items[i..]).Uncertain? && Handed(items[i..], stored) == []
  {
    assert items[i..][0] == items[i] && items[i..][1..] == items[i + 1..];
  }

  lemma WholeRest(items: seq<System.Item>, stored: bool)
    ensures Verdict(items) == Verdict(items[0..]) && Handed(items, stored) == Handed(items[0..], stored)
  {
    assert items[0..] == items;
  }

  lemma NoRest(items: seq<System.Item>, i: nat, stored: bool)
    requires i == |items|
    ensures Verdict(items[i..]).Uncertain? && Handed(items[i..], stored) == []
  {
  }

  datatype Sent = Refused(code: ErrorCode, certainty: DispatchCertainty) | Streamed(items: seq<System.Item>)

  /** How storage answers the calls made while the attempt is live. The guard's drop is answered. */
  datatype Replies = Replies(dispatch: System.Reply, stream: System.Reply, finish: System.Reply)

  /** How an admitted attempt is left once its guard is gone. */
  function Ending(loaded: bool, sent: Sent, replies: Replies): AttemptState {
    if !loaded then AttemptState.NotDispatched
    else if replies.dispatch.Refused? then AttemptState.Reserved
    else if replies.dispatch.Lost? then AttemptState.Uncertain
    else match sent
      case Refused(_, certainty) =>
        if certainty.NotDispatched? && !replies.finish.Refused? then AttemptState.NotDispatched
        else AttemptState.Uncertain
      case Streamed(items) =>
        if replies.stream.Delivered? && !replies.finish.Refused? then Verdict(items).State()
        else AttemptState.Uncertain
  }

  datatype Response = Response(attempt: AttemptId, chunks: seq<Bytes>, failure: Option<Error>)

  function UncertainError(e: Error, binding: BindingId): Error {
    e.Bound(binding).(requestState := DispatchCertainty.Unknown)
  }

  /** The guard's attempt stands at a state the ledger recorded no later than now. */
  ghost predicate Stands(guard: AttemptGuard, t: T.Rows, a: Attempt, state: AttemptState, at: Timestamp)
    reads guard, guard.clock, guard.ledger
  {
    && guard.id == a.id && Holds(t, a) && 0 <= at <= guard.clock.now
    && guard.ledger.Rows() == Standing(t, a, state, at)
  }

  /** Where the attempt will stand when the guard is dropped. */
  ghost predicate Owed(guard: AttemptGuard, t: T.Rows, a: Attempt, state: AttemptState, at: Timestamp, ending: AttemptState)
    reads guard, guard.clock, guard.ledger
  {
    && Stands(guard, t, a, state, at)
    && ending == if guard.armed then SettledState(state, guard.onDrop) else state
  }

  /** The error names the attempt and its binding, and what is known of its dispatch. */
  predicate Says(e: Error, code: ErrorCode, certainty: DispatchCertainty, binding: BindingId, id: AttemptId) {
    e.code == code && e.requestState == certainty && e.binding == Some(binding) && e.attempt == Some(id)
  }

  lemma UncertainSays(code: ErrorCode, binding: BindingId, id: AttemptId)
    ensures Says(UncertainError(NewError(code).WithAttempt(id), binding), code, DispatchCertainty.Unknown, binding, id)
  {
  }

  /** What the caller of an admitted attempt is told when there is no response: that nothing was
      sent only if the secret did not load or the transport certified it; what the transport says
      of a send it gave up on; and otherwise that nobody knows. */
  predicate Told(e: Error, loaded: bool, sent: Sent, replies: Replies, binding: BindingId, id: AttemptId) {
    if !loaded then
      && e.code == (if replies.finish.Delivered? then ErrorCode.CredentialUnavailable else StorageUnavailable)
      && e.requestState.NotDispatched? && (replies.finish.Delivered? ==> e.binding == Some(binding))
    else if sent.Refused? && replies.dispatch.Delivered? && replies.finish.Delivered? then
      Says(e, sent.code, sent.certainty, binding, id)
    else Says(e, StorageUnavailable, DispatchCertainty.Unknown, binding, id)
  }

  /** The drain task's loop over the provider's stream. */
  method Pump(guard: AttemptGuard, binding: BindingId, items: seq<System.Item>, finish: System.Reply,
      ghost t: T.Rows, ghost a: Attempt, ghost began: Timestamp)
    returns (response: Response, ghost state: AttemptState, ghost at: Timestamp)
    requires guard.armed && guard.onDrop == Settlement.Uncertain && Stands(guard, t, a, AttemptState.Streaming, began)
    modifies guard`armed, guard.clock, guard.ledger`attempts
    ensures Owed(guard, t, a, state, at, if finish.Refused? then AttemptState.Uncertain else Verdict(items).State())
    ensures began <= at
    ensures response.attempt == a.id && response.chunks == Handed(items, finish.Delivered?)
    ensures response.failure.Some? <==> Verdict(items).Uncertain? || !finish.Delivered?
    ensures response.failure.Some? ==>
      Says(response.failure.value, if Verdict(items).Uncertain? then UpstreamUnavailable else StorageUnavailable,
           DispatchCertainty.Unknown, binding, a.id)
  {
    hide T.Settle, Standing, Says, UncertainError, Verdict, Handed;
    WholeRest(items, finish.Delivered?);
    UncertainSays(UpstreamUnavailable, binding, guard.id);
    UncertainSays(StorageUnavailable, binding, guard.id);
    var id := guard.id;
    var lost := UncertainError(NewError(UpstreamUnavailable).WithAttempt(id), binding);
    var chunks: seq<Bytes> := [];
    state, at := AttemptState.Streaming, began;
    var i := 0;
    while i < |items|
      invariant 0 <= i <= |items|
      invariant guard.armed && Stands(guard, t, a, AttemptState.Streaming, began)
      invariant Verdict(items) == Verdict(items[i..])
      invariant Handed(items, finish.Delivered?) == chunks + Handed(items[i..], finish.Delivered?)
    {
      RestAt(items, i, finish.Delivered?);
      match items[i] {
        case Data(bytes) =>
          chunks := chunks + [bytes];
        case Terminal(bytes, outcome) =>
          if !outcome.Evidence() { return Response(id, chunks, Some(lost)), state, at; }
          var r;
          r, state, at := End(guard, outcome, finish, t, a, began);
          if r.Err? {
            return Response(id, chunks, Some(UncertainError(r.error.WithAttempt(id), binding))), state, at;
          }
          return Response(id, chunks + [bytes], None), state, at;
        case Finished(outcome) =>
          if !outcome.Evidence() { return Response(id, chunks, Some(lost)), state, at; }
          var r;
          r, state, at := End(guard, outcome, finish, t, a, began);
          if r.Err? {
            return Response(id, chunks, Some(UncertainError(r.error.WithAttempt(id), binding))), state, at;
          }
          return Response(id, chunks, None), state, at;
        case _ =>
          var r;
          r, state, at := End(guard, Settlement.Uncertain, finish, t, a, began);
          return Response(id, chunks, Some(lost)), state, at;
      }
      i := i + 1;
    }
    NoRest(items, i, finish.Delivered?);
    var r;
    r, state, at := End(guard, Settlement.Uncertain, finish, t, a, began);
    response := Response(id, chunks, Some(lost));
  }

  /** `guard.finish` on a streaming attempt: stored, or left to the drop. */
  method End(guard: AttemptGuard, outcome: Settlement, finish: System.Reply,
      ghost t: T.Rows, ghost a: Attempt, ghost began: Timestamp)
    returns (r: Result<()>, ghost state: AttemptState, ghost at: Timestamp)
    requires guard.armed && guard.onDrop == Settlement.Uncertain && Stands(guard, t, a, AttemptState.Streaming, began)
    requires !outcome.NotDispatched?
    modifies guard`armed, guard.clock, guard.ledger`attempts
    ensures Owed(guard, t, a, state, at, if finish.Refused? then AttemptState.Uncertain else outcome.State())
    ensures began <= at && (r.Ok? <==> finish.Delivered?) && (r.Err? ==> r.error == NewError(StorageUnavailable))
  {
    hide T.Settle, Standing;
    r := guard.Finish(outcome, finish);
    SettleStands(t, a, began, AttemptState.Streaming, outcome, guard.clock.now);
    state := if finish.Refused? then AttemptState.Streaming else outcome.State();
    at := if finish.Refused? then began else guard.clock.now;
  }

  /** From a durable admission to the end of the stream; the guard is still to be dropped. */
  method Attempt(guard: AttemptGuard, binding: BindingId, loaded: bool, sent: Sent, replies: Replies,
      ghost t: T.Rows, ghost a: Attempt, ghost began: Timestamp)
    returns (r: Result<Response>, ghost state: AttemptState, ghost at: Timestamp)
    requires guard.armed && guard.onDrop == Settlement.NotDispatched && Stands(guard, t, a, AttemptState.Reserved, began)
    modifies guard, guard.clock, guard.ledger`attempts
    ensures Owed(guard, t, a, state, at, Ending(loaded, sent, replies)) && began <= at
    ensures loaded && replies.dispatch.Refused? ==> state.Reserved? && at == began
    ensures r.Ok? <==> loaded && sent.Streamed? && replies.dispatch.Delivered? && replies.stream.Delivered?
    ensures r.Ok? ==> r.value.attempt == a.id && r.value.chunks == Handed(sent.items, replies.finish.Delivered?)
    ensures r.Ok? ==> (r.value.failure.Some? <==> Verdict(sent.items).Uncertain? || !replies.finish.Delivered?)
    ensures r.Ok? && r.value.failure.Some? ==>
      Says(r.value.failure.value, if Verdict(sent.items).Uncertain? then UpstreamUnavailable else StorageUnavailable,
           DispatchCertainty.Unknown, binding, a.id)
    ensures r.Err? ==> Told(r.error, loaded, sent, replies, binding, a.id)
  {
    hide T.Settle, T.Advance, Standing, Verdict, Handed;
    var id := guard.id;
    if !loaded {
      var finished := guard.Finish(Settlement.NotDispatched, replies.finish);
      SettleStands(t, a, began, AttemptState.Reserved, Settlement.NotDispatched, guard.clock.now);
      state := if replies.finish.Refused? then AttemptState.Reserved else AttemptState.NotDispatched;
      at := if replies.finish.Refused? then began else guard.clock.now;
      if finished.Err? { return Err(finished.error), state, at; }
      return Err(NewError(ErrorCode.CredentialUnavailable).Bound(binding)), state, at;
    }
    // Armed conservatively before the durable transition.
    guard.onDrop := Settlement.Uncertain;
    state, at := AttemptState.Reserved, began;
    var dispatched;
    dispatched, state, at := Mark(guard, state, AttemptState.Dispatching, replies.dispatch, t, a, at);
    if dispatched.Err? { return Err(UncertainError(dispatched.error, binding).WithAttempt(id)), state, at; }
    if sent.Refused? {
      var outcome := if sent.certainty.NotDispatched? then Settlement.NotDispatched else Settlement.Uncertain;
      var finished := guard.Finish(outcome, replies.finish);
      SettleStands(t, a, at, AttemptState.Dispatching, outcome, guard.clock.now);
      if !replies.finish.Refused? { state, at := outcome.State(), guard.clock.now; }
      if finished.Err? { return Err(UncertainError(finished.error, binding).WithAttempt(id)), state, at; }
      var e := NewError(sent.code).Bound(binding).WithAttempt(id).(requestState := sent.certainty);
      return Err(e), state, at;
    }
    var streaming;
    streaming, state, at := Mark(guard, state, AttemptState.Streaming, replies.stream, t, a, at);
    if streaming.Err? { return Err(UncertainError(streaming.error, binding).WithAttempt(id)), state, at; }
    var response;
    response, state, at := Pump(guard, binding, sent.items, replies.finish, t, a, at);
    r := Ok(response);
  }

  /** A durable transition, refused or committed without the answer arriving. */
  method Mark(guard: AttemptGuard, ghost from: AttemptState, next: AttemptState, reply: System.Reply,
      ghost t: T.Rows, ghost a: Attempt, ghost began: Timestamp)
    returns (r: Result<()>, ghost state: AttemptState, ghost at: Timestamp)
    requires Stands(guard, t, a, from, began)
    requires (from.Reserved? && next.Dispatching?) || (from.Dispatching? && next.Streaming?)
    modifies guard.clock, guard.ledger`attempts
    ensures Stands(guard, t, a, state, at) && began <= at
    ensures state == (if reply.Refused? then from else next) && (r.Ok? <==> reply.Delivered?)
    ensures r.Err? ==> r.error == NewError(StorageUnavailable)
    ensures reply.Refused? ==> at == began
  {
    hide T.Advance, Standing;
    var now := guard.clock.Now();
    state, at := from, began;
    if reply.Refused? { return Err(NewError(StorageUnavailable)), state, at; }
    if next.Dispatching? {
      r := guard.ledger.MarkDispatching(guard.id, now);
    } else {
      r := guard.ledger.MarkStreaming(guard.id, now);
    }
    AdvanceStands(t, a, began, from, next, now);
    state, at := next, now;
    if reply.Lost? { r := Err(NewError(StorageUnavailable)); }
  }

  // ---------------------------------------------------------------- the whole request

  /** What the body says, once parsed; the fingerprint stands for its digest. */
  datatype Body = Body(parsed: Result<(string, Option<string>)>, fingerprint: string)

  /** The checks before a claim is asked for, in order; None when all pass. */
  ghost predicate Checked(t: T.Rows, p: Principal, id: BindingId, protocol: S.Protocol, body: Body, preparation: Result<()>) {
    && id in t.bindings && t.bindings[id].principal == p.id
    && var b := t.bindings[id].data;
    && b.intent.pool in p.pools && (b.intent.product.CodexSubscription? <==> protocol.Responses?)
    && body.parsed.Ok? && (protocol.Messages? ==> b.intent.effort.None?) && b.closedAt.None?
    && (b.intent.model.Some? ==> b.intent.model.value == body.parsed.value.0)
    && (b.intent.effort.Some? ==> b.intent.effort == body.parsed.value.1)
    && preparation.Ok?
  }

  /** The first check that fails answers. */
  ghost predicate Answers(t: T.Rows, p: Principal, id: BindingId, protocol: S.Protocol, body: Body, preparation: Result<()>, e: Error) {
    if id !in t.bindings || t.bindings[id].principal != p.id || t.bindings[id].data.intent.pool !in p.pools then
      e == NewError(NotFound)
    else
      var b := t.bindings[id].data;
      && e.binding == Some(id)
      && if b.intent.product.CodexSubscription? != protocol.Responses? then e.code == Unsupported
         else if body.parsed.Err? then e == body.parsed.error.Bound(id)
         else if protocol.Messages? && b.intent.effort.Some? then e.code == Unsupported
         else if b.closedAt.Some? then e.code == Closed
         else if (b.intent.model.Some? && b.intent.model.value != body.parsed.value.0)
              || (b.intent.effort.Some? && b.intent.effort != body.parsed.value.1) then e.code == IntentConflict
         else preparation.Err? && e == preparation.error.Bound(id)
  }

  /** Nothing but the new attempt is ever written, and it ends as its evidence says. */
  method ExecuteInner(ledger: SqliteLedger, clock: Clock, p: Principal, id: BindingId, operation: Option<OperationId>,
      protocol: S.Protocol, body: Body, preparation: Result<()>, uuid: AttemptId, loaded: bool, sent: Sent, replies: Replies)
    returns (r: Result<Response>, ghost admitted: bool, ghost began: Timestamp, ghost at: Timestamp)
    modifies clock, ledger`attempts
    ensures old(clock.now) <= began <= at <= clock.now
    ensures !admitted ==> r.Err? && ledger.Rows() == old(ledger.Rows())
    ensures !Checked(old(ledger.Rows()), p, id, protocol, body, preparation) ==>
      !admitted && Answers(old(ledger.Rows()), p, id, protocol, body, preparation, r.error)
    ensures Checked(old(ledger.Rows()), p, id, protocol, body, preparation) ==> (
      var adm := Admission(id, operation, body.fingerprint, body.parsed.value.0, body.parsed.value.1);
      var o := T.Admit(old(ledger.Rows()), p, adm, began, uuid);
      (admitted <==> o.result.Ok?) && (!admitted ==> r == Err(o.result.error)))
    ensures admitted ==> body.parsed.Ok?
    ensures admitted && r.Err? ==> Told(r.error, loaded, sent, replies, id, uuid)
    // Whoever is told that nothing was sent may send again: the attempt is on record as not dispatched.
    ensures admitted && r.Err? && r.error.requestState.NotDispatched? ==>
      Ending(loaded, sent, replies).NotDispatched? && (!loaded || (sent.Refused? && sent.certainty.NotDispatched?))
    ensures admitted ==> (
      var adm := Admission(id, operation, body.fingerprint, body.parsed.value.0, body.parsed.value.1);
      var o := T.Admit(old(ledger.Rows()), p, adm, began, uuid);
      && o.result.Ok?
      && ledger.Rows() == Standing(o.rows, o.result.value.attempt, Ending(loaded, sent, replies), at)
      && (r.Ok? <==> loaded && sent.Streamed? && replies.dispatch.Delivered? && replies.stream.Delivered?)
      && (loaded && replies.dispatch.Refused? ==> at == began)
      && (r.Ok? ==> r.value.attempt == uuid && r.value.chunks == Handed(sent.items, replies.finish.Delivered?))
      && (r.Ok? ==> (r.value.failure.Some? <==> Verdict(sent.items).Uncertain? || !replies.finish.Delivered?)))
  {
    hide T.Admit, T.Settle, Standing, Ending, Handed, Told, Verdict;
    began, at, admitted := clock.now, clock.now, false;
    var found := ledger.AuthorizedBinding(p, id);
    if found.Err? { return Err(found.error), admitted, began, at; }
    var binding := found.value;
    if S.ProtocolOf(binding.intent.product) != protocol {
      return Err(NewError(Unsupported).Bound(id)), admitted, began, at;
    }
    if body.parsed.Err? { return Err(body.parsed.error.Bound(id)), admitted, began, at; }
    var (model, effort) := body.parsed.value;
    if protocol == S.Messages && binding.intent.effort.Some? {
      return Err(NewError(Unsupported).Bound(id)), admitted, began, at;
    }
    if binding.closedAt.Some? { return Err(NewError(Closed).Bound(id)), admitted, began, at; }
    if T.PinConflict(binding.intent, model, effort) {
      return Err(NewError(IntentConflict).Bound(id)), admitted, began, at;
    }
    if preparation.Err? { return Err(preparation.error.Bound(id)), admitted, began, at; }
    var now := clock.Now();
    began, at := now, now;
    var adm := Admission(id, operation, body.fingerprint, model, effort);
    ghost var o := T.Admit(ledger.Rows(), p, adm, now, uuid);
    var prepared := ledger.Admit(p, adm, now, uuid);
    if prepared.Err? {
      RefusedAdmission(old(ledger.Rows()), p, adm, now, uuid);
      return Err(prepared.error), admitted, began, at;
    }
    admitted := true;
    AdmittedStands(old(ledger.Rows()), p, adm, now, uuid);
    ghost var a := prepared.value.attempt;
    var guard := new AttemptGuard(ledger, clock, prepared.value.attempt.id);
    ghost var state;
    r, state, at := Attempt(guard, id, loaded, sent, replies, o.rows, a, began);
    guard.Drop();
    SettleStands(o.rows, a, at, state, guard.onDrop, clock.now);
    UndispatchedStays(sent, replies);
    if r.Err? { ToldTruly(r.error, loaded, sent, replies, id, uuid); }
    if guard.armed && SettledState(state, guard.onDrop) != state { at := clock.now; }
  }

  lemma ToldTruly(e: Error, loaded: bool, sent: Sent, replies: Replies, binding: BindingId, id: AttemptId)
    requires Told(e, loaded, sent, replies, binding, id)
    ensures e.requestState.NotDispatched? ==>
      Ending(loaded, sent, replies).NotDispatched? && (!loaded || (sent.Refused? && sent.certainty.NotDispatched?))
  {
  }

  lemma UndispatchedStays(sent: Sent, replies: Replies)
    ensures replies.dispatch.Refused? ==> Ending(true, sent, replies).Reserved?
  {
  }

  lemma RefusedAdmission(t: T.Rows, p: Principal, adm: Admission, now: Timestamp, uuid: AttemptId)
    requires T.Admit(t, p, adm, now, uuid).result.Err?
    ensures T.Admit(t, p, adm, now, uuid).rows == t
  {
  }

  // ------------------------------------------------------------ from bytes to the ledger

  lemma {:induction false} ItemsAgree(items: seq<System.Item>, chunks: seq<Bytes>, i: nat)
    requires items != [] && i < |items| <= |chunks| + 1
    requires forall k :: 0 <= k < |items| - 1 ==> items[k] == System.Data(chunks[k])
    ensures Verdict(items[i..]) == Verdict([items[|items| - 1]])
    ensures Handed(items[i..], true) == chunks[i..|items| - 1] + Handed([items[|items| - 1]], true)
    decreases |items| - i
  {
    if i == |items| - 1 {
      assert items[i..] == [items[i]];
    } else {
      ItemsAgree(items, chunks, i + 1);
      assert items[i..][1..] == items[i + 1..];
    }
  }

  lemma {:induction false} ConcatSplits(a: seq<Bytes>, b: seq<Bytes>)
    ensures S.Concat(a + b) == S.Concat(a) + S.Concat(b)
  {
    if b == [] {
      assert a + b == a;
    } else {
      ConcatSplits(a, b[..|b| - 1]);
      assert (a + b)[..|a + b| - 1] == a + b[..|b| - 1];
    }
  }

  /** What the chunks up to the decisive one prove, all of them prove. */
  lemma DecidedEarly(codec: S.Codec, protocol: S.Protocol, chunks: seq<Bytes>, n: nat)
    requires n <= |chunks| && !S.Batch(codec, protocol, S.Concat(chunks[..n])).More?
    ensures S.Batch(codec, protocol, S.Concat(chunks)) == S.Batch(codec, protocol, S.Concat(chunks[..n]))
  {
    assert chunks == chunks[..n] + chunks[n..];
    ConcatSplits(chunks[..n], chunks[n..]);
    S.BatchSticks(codec, protocol, S.Concat(chunks[..n]), S.Concat(chunks[n..]));
  }

  /** The chunks end with the one that completes the first terminal frame. */
  predicate Completes(codec: S.Codec, protocol: S.Protocol, chunks: seq<Bytes>, outcome: Settlement) {
    && chunks != []
    && S.Batch(codec, protocol, S.Concat(chunks)) == S.Done(outcome)
    && S.Batch(codec, protocol, S.Concat(chunks[..|chunks| - 1])).More?
  }

  /** The ledger's verdict on a stream is exactly what its bytes prove, read as one text; and
      the caller is handed an unbroken prefix of the chunks, ending at the one that proves it. */
  lemma StreamSettles(codec: S.Codec, protocol: S.Protocol, body: seq<Option<Bytes>>, items: seq<System.Item>)
    requires X.Forwarded(codec, protocol, body, items)
    ensures Handed(items, true) <= X.Chunks(body)
    ensures var proven := S.Batch(codec, protocol, S.Concat(X.Chunks(body)));
      Verdict(items) == if proven.Done? then proven.outcome else Settlement.Uncertain
    ensures var proven := S.Batch(codec, protocol, S.Concat(X.Chunks(body)));
      proven.Done? ==> Completes(codec, protocol, Handed(items, true), proven.outcome)
  {
    hide S.Batch, S.Concat, X.Chunks;
    var chunks, last := X.Chunks(body), |items| - 1;
    ItemsAgree(items, chunks, 0);
    assert items[0..] == items && chunks[0..last] == chunks[..last];
    if last < |chunks| && items[last].Terminal? {
      var seen := chunks[..last + 1];
      DecidedEarly(codec, protocol, chunks, last + 1);
      S.DoneIsEvidence(codec, protocol, S.Concat(seen));
      assert seen == chunks[..last] + [chunks[last]];
      assert seen[..|seen| - 1] == chunks[..last];
    } else if last < |chunks| {
      DecidedEarly(codec, protocol, chunks, last + 1);
    } else {
      assert chunks[..last] == chunks;
    }
  }
}
