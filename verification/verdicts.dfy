/** What each ledger transaction answers, said outright: exactly when it is granted, what it refuses
    with otherwise, and which rows it leaves. */
module Verdicts {
  import opened Domain
  import opened Tables
  import opened Laws

  // ------------------------------------------------------------- what the words mean

  /** An attempt that may be running. */
  predicate Running(row: AttemptRow) {
    row.state == AttemptState.Reserved || row.state == Dispatching || row.state == Streaming
  }

  predicate Owns(t: Rows, p: Principal, id: BindingId) {
    id in t.bindings && t.bindings[id].principal == p.id && t.bindings[id].data.intent.pool in p.pools
  }

  predicate Space(c: char) {
    var n := c as int;
    || 0x9 <= n <= 0xD || n == 0x20 || n == 0x85 || n == 0xA0 || n == 0x1680 || 0x2000 <= n <= 0x200A
    || n == 0x2028 || n == 0x2029 || n == 0x202F || n == 0x205F || n == 0x3000
  }

  predicate AllSpaces(text: string) { forall i :: 0 <= i < |text| ==> Space(text[i]) }

  lemma BlankMeans(text: string)
    ensures Blank(text) <==> AllSpaces(text)
  {
    if Blank(text) {
      assert forall i :: 0 <= i < |text| ==> text[i] in text;
    }
  }

  // ---------------------------------------------------------------- administration

  /** The generation is no older than any on record. */
  predicate Newest(t: Rows, c: CredentialRef) {
    && (c.id in t.watermarks ==> t.watermarks[c.id] <= c.generation)
    && (c.id in t.credentials ==> t.credentials[c.id].generation <= c.generation)
  }

  lemma AdvanceMeans(t: Rows, c: CredentialRef)
    ensures var o := AdvanceCredential(t, c);
      && (o.result.Ok? <==> Newest(t, c)) && (o.result.Err? ==> o.result.error == NewError(InvalidInput))
      && o.rows == if Newest(t, c) then t.(watermarks := t.watermarks[c.id := c.generation]) else t
  {
  }

  /** The account may be stored: it serves something, is the product and owner's it was, and so is
      its credential, at a generation no older than any on record. */
  ghost predicate Storable(t: Rows, a: Account) {
    && a.models != {} && (forall model :: model in a.models ==> !AllSpaces(model))
    && (a.id in t.accounts ==> t.accounts[a.id].product == a.product && t.accounts[a.id].quotaOwner == a.quotaOwner)
    && (a.credential.id in t.credentials ==>
          && t.credentials[a.credential.id].owner == a.quotaOwner && t.credentials[a.credential.id].product == a.product)
    && Newest(t, a.credential)
  }

  lemma PutAccountMeans(t: Rows, a: Account)
    ensures var o := PutAccount(t, a);
      && (o.result.Ok? <==> Storable(t, a)) && (o.result.Err? ==> o.result.error == NewError(InvalidInput))
      && (o.result.Err? ==> o.rows == t)
      && (o.result.Ok? ==>
            o.rows == t.(accounts := t.accounts[a.id := a],
                         watermarks := t.watermarks[a.credential.id := a.credential.generation],
                         credentials := t.credentials[a.credential.id :=
                           CredentialRow(a.quotaOwner, a.product, a.credential.generation)]))
  {
    forall model | model in a.models
      ensures Blank(model) <==> AllSpaces(model)
    {
      BlankMeans(model);
    }
    hide Blank, AllSpaces;
  }

  lemma PolicyMeans(t: Rows, p: QuotaPolicy)
    ensures var o := PutPolicy(t, p);
      && (o.result.Ok? <==> p.maxConcurrency > 0) && (o.result.Err? ==> o.result.error == NewError(InvalidInput))
      && o.rows == if p.maxConcurrency > 0 then t.(policies := t.policies[p.owner := p]) else t
  {
  }

  /** Evidence is accepted when it spans some time and is newer than, or the same as, what is on record. */
  lemma ObserveMeans(t: Rows, x: UsageObservation)
    ensures var o := Observe(t, x);
      && (o.result.Ok? <==>
            && 0 <= x.observedAt < x.validUntil
            && (x.owner in t.observations ==>
                  t.observations[x.owner] == x || t.observations[x.owner].observedAt < x.observedAt))
      && (o.result.Err? ==> o.result.error == NewError(InvalidInput))
      && o.rows == if o.result.Ok? then t.(observations := t.observations[x.owner := x]) else t
  {
    if x.owner in t.observations && t.observations[x.owner] == x {
      assert t.observations[x.owner := x] == t.observations;
    }
  }

  lemma EnableMeans(t: Rows, id: AccountId, enabled: bool)
    ensures var o := SetAccountEnabled(t, id, enabled);
      && (o.result.Ok? <==> id in t.accounts) && (o.result.Err? ==> o.result.error == NewError(NotFound))
      && o.rows == if id in t.accounts then t.(accounts := t.accounts[id := t.accounts[id].(enabled := enabled)]) else t
  {
  }

  // -------------------------------------------------------------------- eligibility

  /** Why an account cannot take one more request: the first reason that applies. */
  predicate Reason(t: Rows, a: Account, intent: CreateBinding, now: Timestamp, load: nat, code: ErrorCode) {
    var owner := a.quotaOwner;
    if !a.enabled || a.product != intent.product || intent.pool !in a.pools
       || (intent.model.Some? && !Offers(a, intent.model.value)) then code == NoEligibleAccount
    else if owner !in t.policies then code == ErrorCode.CapacityUnknown
    else if owner in t.observations && t.observations[owner].status == Exhausted then code == SessionQuotaExhausted
    else if owner in t.observations && t.observations[owner].status == CapacityStatus.ReauthenticationRequired then
      code == ErrorCode.ReauthenticationRequired
    else if t.policies[owner].unknown == Reject
         && !(owner in t.observations && t.observations[owner].status == Available
              && t.observations[owner].observedAt <= now < t.observations[owner].validUntil) then
      code == ErrorCode.CapacityUnknown
    else load >= t.policies[owner].maxConcurrency && code == SessionConcurrencyExhausted
  }

  lemma IneligibleMeans(t: Rows, a: Account, intent: CreateBinding, now: Timestamp, code: ErrorCode)
    ensures Ineligible(t, a, intent, now) == Some(code) <==> Reason(t, a, intent, now, HeldBy(t, a.quotaOwner), code)
  {
    HeldIsPressure(t, a.quotaOwner);
    hide Pressure, HeldBy;
  }

  // ---------------------------------------------------------------------- admission

  /** Another attempt already carries this operation on this binding. */
  predicate Repeats(row: AttemptRow, adm: Admission) {
    row.binding == adm.binding && adm.operation.Some? && row.operation == adm.operation
  }

  /** Running work that cannot be told apart from what is asked for. */
  predicate Collides(row: AttemptRow, adm: Admission) {
    row.binding == adm.binding && Running(row) && (adm.operation.None? || row.operation.None?)
  }

  predicate Unknown(row: AttemptRow, adm: Admission) { row.binding == adm.binding && row.state == AttemptState.Uncertain }

  /** The request itself is in order, and its binding open to it. */
  ghost predicate Proper(t: Rows, p: Principal, adm: Admission, now: Timestamp) {
    && 0 <= now && adm.fingerprint != "" && ByteLength(adm.fingerprint) <= 128 && Owns(t, p, adm.binding)
    && var b := t.bindings[adm.binding].data;
    && b.closedAt.None? && b.createdAt <= now
    && (b.intent.model.Some? ==> b.intent.model.value == adm.model)
    && (b.intent.effort.Some? ==> b.intent.effort == adm.effort)
  }

  /** Nothing on the binding stands in the way. */
  ghost predicate Unobstructed(t: Rows, adm: Admission) {
    forall id :: id in t.attempts ==>
      !Repeats(t.attempts[id], adm) && !Unknown(t.attempts[id], adm) && !Collides(t.attempts[id], adm)
  }

  /** The generation is on record. */
  predicate Recorded(t: Rows, c: CredentialRef) {
    || (c.id in t.watermarks && t.watermarks[c.id] == c.generation)
    || (c.id in t.credentials && t.credentials[c.id].generation == c.generation)
  }

  lemma FloorMeans(t: Rows, c: CredentialRef)
    ensures Floor(t, c.id) == Some(c.generation) <==> Newest(t, c) && Recorded(t, c)
  {
  }

  /** The bound account can take the request, under its credential's newest generation. */
  ghost predicate Ready(t: Rows, adm: Admission, now: Timestamp)
    requires adm.binding in t.bindings
  {
    var b := t.bindings[adm.binding].data;
    && b.account in t.accounts
    && var a := t.accounts[b.account];
    && Offers(a, adm.model) && Fit(t, a, b.intent, now)
    && Newest(t, a.credential) && Recorded(t, a.credential)
  }

  lemma FenceMeans(t: Rows, p: Principal, adm: Admission, now: Timestamp)
    requires AttemptsAgree(t.attempts, t.bindings.Keys) && BindingsAgree(t.bindings, t.accounts.Keys)
    ensures AdmissionFence(t, p, adm, now).None? <==> Proper(t, p, adm, now) && Unobstructed(t, adm)
  {
    if Owns(t, p, adm.binding) {
      var id := t.bindings[adm.binding].data.id;
      assert BindingAgrees(adm.binding, t.bindings[adm.binding], t.accounts.Keys);
      forall x | x in t.attempts
        ensures x in SameOperation(t, id, adm.operation) <==> Repeats(t.attempts[x], adm)
        ensures x in UncertainOn(t, id) <==> Unknown(t.attempts[x], adm)
        ensures x in Blocking(t, id, adm.operation) <==> Collides(t.attempts[x], adm)
      {
      }
      hide BindingsAgree, AttemptsAgree;
    }
  }

  /** An admission is granted exactly when the request is proper, its binding unobstructed, the bound
      account ready, and the identifier drawn for it fresh. */
  lemma AdmitMeans(t: Rows, p: Principal, adm: Admission, now: Timestamp, uuid: AttemptId)
    requires Consistent(t)
    ensures Admit(t, p, adm, now, uuid).result.Ok? <==>
      Proper(t, p, adm, now) && Unobstructed(t, adm) && Ready(t, adm, now) && uuid !in t.attempts
  {
    FenceMeans(t, p, adm, now);
    hide AdmissionFence, Consistent, Unobstructed, Fit, Ineligible, Floor, Newest, Recorded;
    if Owns(t, p, adm.binding) && t.bindings[adm.binding].data.account in t.accounts {
      var b := t.bindings[adm.binding].data;
      EligibleMeansFit(t, t.accounts[b.account], b.intent, now);
      FloorMeans(t, t.accounts[b.account].credential);
    }
  }

  /** A repeated operation is refused with the attempt that carries it and what is known of its
      dispatch; as a conflict only if it was a different request. */
  lemma RepeatIsRefused(t: Rows, p: Principal, adm: Admission, now: Timestamp, uuid: AttemptId, first: AttemptId)
    requires Consistent(t) && Proper(t, p, adm, now) && first in t.attempts && Repeats(t.attempts[first], adm)
    ensures var r := Admit(t, p, adm, now, uuid).result; var row := t.attempts[first];
      && r.Err? && r.error.binding == Some(adm.binding) && r.error.attempt == Some(first)
      && r.error.code == (if row.data.fingerprint == adm.fingerprint then OperationAlreadyExists else OperationConflict)
      && r.error.requestState ==
          if row.state == AttemptState.Reserved || row.state == AttemptState.NotDispatched then DispatchCertainty.NotDispatched
          else if row.state == Dispatching || row.state == AttemptState.Uncertain then DispatchCertainty.Unknown
          else DispatchCertainty.Dispatched
  {
    assert BindingAgrees(adm.binding, t.bindings[adm.binding], t.accounts.Keys);
    assert AttemptAgrees(first, t.attempts[first], t.bindings.Keys);
    var same := SameOperation(t, adm.binding, adm.operation);
    assert first in same;
    assert forall x :: x in t.attempts && x != first ==> !ClashingOperations(t.attempts[x], t.attempts[first]);
    assert Least(same) == first;
    hide Consistent, BindingsAgree, AttemptsAgree;
  }

  /** Uncertain work is named before colliding work is; of several attempts the first. */
  lemma ObstacleIsNamed(t: Rows, p: Principal, adm: Admission, now: Timestamp, uuid: AttemptId)
    requires Consistent(t) && Proper(t, p, adm, now) && !Unobstructed(t, adm)
    requires forall id :: id in t.attempts ==> !Repeats(t.attempts[id], adm)
    ensures var r := Admit(t, p, adm, now, uuid).result;
      && r.Err? && r.error.binding == Some(adm.binding) && r.error.attempt.Some? && r.error.attempt.value in t.attempts
      && var row := t.attempts[r.error.attempt.value];
      if exists id :: id in t.attempts && Unknown(t.attempts[id], adm) then
        && r.error.code == SessionUncertain && Unknown(row, adm)
        && forall id :: id in t.attempts && Unknown(t.attempts[id], adm) ==> r.error.attempt.value <= id
      else
        && r.error.code == SessionConcurrencyExhausted && Collides(row, adm)
        && forall id :: id in t.attempts && Collides(t.attempts[id], adm) ==> r.error.attempt.value <= id
  {
    assert BindingAgrees(adm.binding, t.bindings[adm.binding], t.accounts.Keys);
    var id := adm.binding;
    forall x | x in t.attempts
      ensures x !in SameOperation(t, id, adm.operation)
      ensures x in UncertainOn(t, id) <==> Unknown(t.attempts[x], adm)
      ensures x in Blocking(t, id, adm.operation) <==> Collides(t.attempts[x], adm)
      ensures t.attempts[x].data.id == x
    {
      assert AttemptAgrees(x, t.attempts[x], t.bindings.Keys);
    }
    hide Consistent, BindingsAgree, AttemptsAgree;
  }

  /** A request that is not proper is told the first thing wrong with it. */
  lemma ImproperIsRefused(t: Rows, p: Principal, adm: Admission, now: Timestamp, uuid: AttemptId)
    requires Consistent(t) && !Proper(t, p, adm, now)
    ensures var r := Admit(t, p, adm, now, uuid).result;
      && r.Err?
      && if now < 0 || adm.fingerprint == "" || ByteLength(adm.fingerprint) > 128 then r.error == NewError(InvalidInput)
         else if !Owns(t, p, adm.binding) then r.error == NewError(NotFound)
         else
           var b := t.bindings[adm.binding].data;
           && r.error.binding == Some(adm.binding)
           && r.error.code == if b.closedAt.Some? then Closed else if now < b.createdAt then InvalidInput else IntentConflict
  {
    if Owns(t, p, adm.binding) { assert BindingAgrees(adm.binding, t.bindings[adm.binding], t.accounts.Keys); }
    hide Consistent, BindingsAgree, AttemptsAgree, SameOperation, UncertainOn, Blocking, Ineligible;
  }

  /** A proper, unobstructed request is told why its account cannot take it. */
  lemma UnreadyIsRefused(t: Rows, p: Principal, adm: Admission, now: Timestamp, uuid: AttemptId, code: ErrorCode)
    requires Consistent(t) && Proper(t, p, adm, now) && Unobstructed(t, adm)
    requires t.bindings[adm.binding].data.account in t.accounts && !Ready(t, adm, now)
    ensures var r := Admit(t, p, adm, now, uuid).result; var b := t.bindings[adm.binding].data;
      var a := t.accounts[b.account];
      && r.Err? && r.error.binding == Some(adm.binding)
      && if !Offers(a, adm.model) then r.error.code == NoEligibleAccount
         else if Fit(t, a, b.intent, now) then r.error.code == ErrorCode.CredentialUnavailable
         else r.error.code == code <==> Reason(t, a, b.intent, now, HeldBy(t, a.quotaOwner), code)
  {
    FenceMeans(t, p, adm, now);
    assert BindingAgrees(adm.binding, t.bindings[adm.binding], t.accounts.Keys);
    var b := t.bindings[adm.binding].data;
    var a := t.accounts[b.account];
    EligibleMeansFit(t, a, b.intent, now);
    IneligibleMeans(t, a, b.intent, now, code);
    FloorMeans(t, a.credential);
    hide AdmissionFence, Consistent, BindingsAgree, Unobstructed, Fit, Ineligible, Floor, Newest, Recorded, Reason, HeldBy;
  }

  /** The row an admission writes. */
  lemma AdmittedRow(t: Rows, p: Principal, adm: Admission, now: Timestamp, uuid: AttemptId)
    requires Consistent(t) && Admit(t, p, adm, now, uuid).result.Ok?
    ensures var o := Admit(t, p, adm, now, uuid); var b := t.bindings[adm.binding].data; var a := t.accounts[b.account];
      var made := Attempt(uuid, adm.binding, a.quotaOwner, adm.operation, adm.fingerprint, a.credential, AttemptState.Reserved,
                          now, now, None);
      && o.result.value == PreparedAttempt(made, b, a)
      && o.rows == t.(attempts := t.attempts[uuid := AttemptRow(adm.binding, a.quotaOwner, adm.operation, AttemptState.Reserved, made)])
  {
    assert adm.binding in t.bindings;
    assert BindingAgrees(adm.binding, t.bindings[adm.binding], t.accounts.Keys);
    hide Consistent, BindingsAgree, SameOperation, UncertainOn, Blocking, Ineligible, Floor;
  }

  // -------------------------------------------------------------------- transitions

  /** An attempt's next states, and the outcomes that name them. */
  predicate Follows(from: AttemptState, to: AttemptState) {
    || (from == AttemptState.Reserved && to == AttemptState.NotDispatched)
    || (from == Dispatching
        && (to == AttemptState.NotDispatched || to == AttemptState.Succeeded || to == AttemptState.Rejected
            || to == AttemptState.Uncertain))
    || ((from == Streaming || from == AttemptState.Uncertain)
        && (to == AttemptState.Succeeded || to == AttemptState.Rejected || to == AttemptState.Uncertain))
  }

  predicate Names(outcome: Settlement, state: AttemptState) {
    || (outcome == Settlement.Succeeded && state == AttemptState.Succeeded)
    || (outcome == Settlement.Rejected && state == AttemptState.Rejected)
    || (outcome == Settlement.NotDispatched && state == AttemptState.NotDispatched)
    || (outcome == Settlement.Uncertain && state == AttemptState.Uncertain)
  }

  /** Only this attempt moved, to this state, in its record and its column. */
  predicate Moves(t: Rows, u: Rows, id: AttemptId, a: Attempt) {
    id in t.attempts && u == t.(attempts := t.attempts[id := t.attempts[id].(state := a.state, data := a)])
  }

  /** A settlement is accepted exactly when the attempt is already there, or may go there and the
      clock is not behind it; it says so in the record and the column, and touches nothing else. */
  lemma SettleMeans(t: Rows, id: AttemptId, outcome: Settlement, next: AttemptState, now: Timestamp)
    requires Consistent(t) && Names(outcome, next)
    ensures var o := Settle(t, id, outcome, now);
      && (o.result.Ok? <==>
            && 0 <= now && id in t.attempts
            && var a := t.attempts[id].data;
            a.state == next || (Follows(a.state, next) && a.updatedAt <= now))
      && (o.result.Err? ==> o.rows == t)
      && (o.result.Err? ==>
            o.result.error.code == if now < 0 then InvalidInput else if id !in t.attempts then NotFound else InvalidTransition)
      && (o.result.Ok? ==> (
            var a := t.attempts[id].data;
            if a.state == next then o.result.value == a && o.rows == t
            else o.result.value == a.(state := next, updatedAt := now) && Moves(t, o.rows, id, o.result.value)))
  {
    if id in t.attempts { assert AttemptAgrees(id, t.attempts[id], t.bindings.Keys); }
    hide Consistent, AttemptsAgree;
  }

  /** A dispatch is marked exactly from reserved, a stream exactly from dispatching. */
  lemma MarkMeans(t: Rows, id: AttemptId, streaming: bool, now: Timestamp)
    requires Consistent(t)
    ensures var o := if streaming then MarkStreaming(t, id, now) else MarkDispatching(t, id, now);
      && (o.result.Ok? <==>
            && 0 <= now && id in t.attempts && t.attempts[id].data.updatedAt <= now
            && t.attempts[id].state == if streaming then Dispatching else AttemptState.Reserved)
      && (o.result.Err? ==> o.rows == t)
      && (o.result.Ok? ==>
            Moves(t, o.rows, id, t.attempts[id].data.(state := if streaming then Streaming else Dispatching, updatedAt := now)))
  {
    if id in t.attempts { assert AttemptAgrees(id, t.attempts[id], t.bindings.Keys); }
    hide Consistent, AttemptsAgree;
  }

  /** Recovery releases what was never sent, fences what may have been, and leaves the rest; no
      moment is forgotten. */
  lemma RecoverMeans(t: Rows, now: Timestamp)
    requires Consistent(t)
    ensures var o := Recover(t, now);
      && (o.result.Ok? <==> 0 <= now) && (now < 0 ==> o.rows == t) && o.rows == t.(attempts := o.rows.attempts)
      && o.rows.attempts.Keys == t.attempts.Keys
      && (0 <= now ==> forall id :: id in t.attempts ==> (
            var r, u := t.attempts[id], o.rows.attempts[id];
            if !Running(r) then u == r
            else
              var a := r.data.(state := if r.state == AttemptState.Reserved then AttemptState.NotDispatched else AttemptState.Uncertain,
                               updatedAt := if r.data.updatedAt < now then now else r.data.updatedAt);
              u == r.(state := a.state, data := a)))
  {
    if 0 <= now {
      forall id | id in t.attempts
        ensures t.attempts[id].data.state == t.attempts[id].state
      {
        assert AttemptAgrees(id, t.attempts[id], t.bindings.Keys);
      }
    }
    hide Consistent, AttemptsAgree;
  }

  // ------------------------------------------------------------------ by hand

  /** What is left of a text without the spaces around it. */
  ghost predicate Trims(text: string, kept: string) {
    && (kept == "" ==> AllSpaces(text))
    && (kept != "" ==> !Space(kept[0]) && !Space(kept[|kept| - 1]))
    && exists before, after :: text == before + kept + after && AllSpaces(before) && AllSpaces(after)
  }

  lemma {:induction false} TrimStartMeans(text: string) returns (before: string)
    ensures text == before + TrimStart(text) && AllSpaces(before)
    ensures TrimStart(text) != "" ==> !Space(TrimStart(text)[0])
  {
    before := "";
    if text != "" && IsSpace(text[0]) {
      before := TrimStartMeans(text[1..]);
      before := [text[0]] + before;
      assert text == [text[0]] + text[1..];
    }
  }

  lemma {:induction false} TrimEndMeans(text: string) returns (after: string)
    ensures text == TrimEnd(text) + after && AllSpaces(after)
    ensures TrimEnd(text) != "" ==> !Space(TrimEnd(text)[|TrimEnd(text)| - 1])
  {
    after := "";
    if text != "" && IsSpace(text[|text| - 1]) {
      after := TrimEndMeans(text[..|text| - 1]);
      after := after + [text[|text| - 1]];
      assert text == text[..|text| - 1] + [text[|text| - 1]];
    }
  }

  lemma TrimMeans(text: string)
    ensures Trims(text, Trim(text))
  {
    var before := TrimStartMeans(text);
    var rest := TrimStart(text);
    var after := TrimEndMeans(rest);
    var kept := TrimEnd(rest);
    hide TrimStart, TrimEnd, Space;
    assert text == before + kept + after;
    if kept == "" {
      assert rest == after;
      assert text == before + after;
    } else {
      assert kept[0] == rest[0];
    }
  }

  /** Someone may see the binding: its own principal, or an administrator, with its pool. */
  predicate Sees(t: Rows, p: Principal, id: BindingId) {
    id in t.bindings && t.bindings[id].data.intent.pool in p.pools && (p.admin || t.bindings[id].principal == p.id)
  }

  /** An operator resolves exactly an uncertain attempt it may see, to an outcome a provider could
      have proven, with a reason of at most 512 bytes; the record says who, why and when. */
  lemma ResolveMeans(t: Rows, p: Principal, id: AttemptId, outcome: Settlement, rationale: string, now: Timestamp)
    requires Consistent(t)
    ensures var o := ResolveAttempt(t, p, id, outcome, rationale, now); var kept := Trim(rationale);
      && Trims(rationale, kept)
      && (o.result.Ok? <==>
            && 0 <= now && p.admin && (outcome == Settlement.Succeeded || outcome == Settlement.Rejected)
            && kept != "" && ByteLength(kept) <= 512
            && id in t.attempts && Sees(t, p, t.attempts[id].binding) && t.attempts[id].state == AttemptState.Uncertain)
      && (o.result.Err? ==> o.rows == t)
      && (o.result.Ok? ==> (
            var a := t.attempts[id].data;
            && o.result.value == a.(
                 state := if outcome == Settlement.Succeeded then AttemptState.Succeeded else AttemptState.Rejected,
                 updatedAt := if a.updatedAt < now then now else a.updatedAt,
                 resolution := Some(AttemptResolution(p.id, outcome, kept, now)))
            && Moves(t, o.rows, id, o.result.value)))
  {
    TrimMeans(rationale);
    if id in t.attempts { assert AttemptAgrees(id, t.attempts[id], t.bindings.Keys); }
    hide Consistent, AttemptsAgree, Trim, Trims;
  }

  /** A refused resolution is told the first thing wrong with it. */
  lemma ResolveRefuses(t: Rows, p: Principal, id: AttemptId, outcome: Settlement, rationale: string, now: Timestamp)
    requires Consistent(t) && ResolveAttempt(t, p, id, outcome, rationale, now).result.Err?
    ensures var e := ResolveAttempt(t, p, id, outcome, rationale, now).result.error; var kept := Trim(rationale);
      e.code ==
        if now < 0 then InvalidInput
        else if !p.admin then Forbidden
        else if outcome != Settlement.Succeeded && outcome != Settlement.Rejected then InvalidInput
        else if kept == "" || ByteLength(kept) > 512 then InvalidInput
        else if id !in t.attempts || !Sees(t, p, t.attempts[id].binding) then NotFound
        else InvalidTransition
  {
    if id in t.attempts { assert AttemptAgrees(id, t.attempts[id], t.bindings.Keys); }
    hide Consistent, AttemptsAgree, Trim;
  }

  // --------------------------------------------------------------------- bindings

  /** The thread's own binding. */
  predicate OfThread(row: BindingRow, p: Principal, session: ClientSessionId) { row.principal == p.id && row.session == session }

  /** The request for a binding is in order. */
  predicate Askable(p: Principal, intent: CreateBinding, now: Timestamp) {
    && 0 <= now && intent.pool in p.pools
    && (intent.model.Some? ==> !AllSpaces(intent.model.value)) && (intent.effort.Some? ==> !AllSpaces(intent.effort.value))
  }

  /** A thread that has a binding is given it, unchanged, exactly when it is open and asked for as it
      was made. */
  lemma RebindMeans(t: Rows, p: Principal, intent: CreateBinding, now: Timestamp, uuid: BindingId, id: BindingId)
    requires Consistent(t) && id in t.bindings && OfThread(t.bindings[id], p, intent.session) && Askable(p, intent, now)
    ensures var o := Bind(t, p, intent, now, uuid); var b := t.bindings[id].data;
      && o.rows == t
      && (o.result.Ok? <==> b.intent.pool in p.pools && b.closedAt.None? && b.intent == intent)
      && (o.result.Ok? ==> o.result.value == b && b.id == id)
      && (o.result.Err? ==>
            o.result.error.code ==
              if b.intent.pool !in p.pools then NotFound else if b.closedAt.Some? then Closed else IntentConflict)
  {
    assert BindingAgrees(id, t.bindings[id], t.accounts.Keys);
    var same := SessionBindings(t, p.id, intent.session);
    assert id in same;
    assert forall x :: x in t.bindings && x != id ==> !SameSession(t.bindings[x], t.bindings[id]);
    assert Least(same) == id;
    if intent.model.Some? { BlankMeans(intent.model.value); }
    if intent.effort.Some? { BlankMeans(intent.effort.value); }
    hide Consistent, BindingsAgree, AllSpaces, Blank, EligibleIds, AllExclusions, NoEligible;
  }

  /** A new thread is bound, to the first account fit for it, exactly when there is one and the
      identifier drawn is fresh. */
  lemma BindMeans(t: Rows, p: Principal, intent: CreateBinding, now: Timestamp, uuid: BindingId)
    requires Consistent(t) && Askable(p, intent, now)
    requires forall id :: id in t.bindings ==> !OfThread(t.bindings[id], p, intent.session)
    ensures var o := Bind(t, p, intent, now, uuid);
      && (o.result.Ok? <==>
            uuid !in t.bindings && exists a :: a in t.accounts && Allowed(intent, a) && Fit(t, t.accounts[a], intent, now))
      && (o.result.Err? ==> o.rows == t)
      && (o.result.Ok? ==> (
            var b := o.result.value;
            && b == Binding(uuid, p.id, intent, b.account, now, None)
            && o.rows == t.(bindings := t.bindings[uuid := BindingRow(p.id, intent.session, b.account, b)])
            && b.account in t.accounts && Allowed(intent, b.account) && Fit(t, t.accounts[b.account], intent, now)
            && forall a :: a in t.accounts && Allowed(intent, a) && Fit(t, t.accounts[a], intent, now) ==> b.account <= a))
  {
    if intent.model.Some? { BlankMeans(intent.model.value); }
    if intent.effort.Some? { BlankMeans(intent.effort.value); }
    assert SessionBindings(t, p.id, intent.session) == {};
    forall a | a in t.accounts
      ensures a in EligibleIds(t, intent, now) <==> Allowed(intent, a) && Fit(t, t.accounts[a], intent, now)
      ensures t.accounts[a].id == a
    {
      EligibleMeansFit(t, t.accounts[a], intent, now);
    }
    hide Consistent, BindingsAgree, AllSpaces, Blank, Fit, Ineligible, AllExclusions, NoEligible;
  }

  /** One exclusion for every account of the pool that is tried, with its own first reason, and none
      for any other. */
  lemma {:induction false} ExclusionsMean(t: Rows, ids: seq<AccountId>, intent: CreateBinding, now: Timestamp)
    requires AccountsAgree(t.accounts) && forall i :: 0 <= i < |ids| ==> ids[i] in t.accounts
    ensures forall x :: x in Exclusions(t, ids, intent, now) <==>
      && x.account in ids && intent.pool in t.accounts[x.account].pools
      && Ineligible(t, t.accounts[x.account], intent, now) == Some(x.code)
  {
    if ids != [] {
      var rest, last := ids[..|ids| - 1], ids[|ids| - 1];
      ExclusionsMean(t, rest, intent, now);
      assert t.accounts[last].id == last;
      hide Ineligible;
      assert forall a :: a in ids <==> a in rest || a == last;
    }
  }

  ghost predicate InAccountOrder(list: seq<AccountExclusion>) {
    forall i, j :: 0 <= i < j < |list| ==> list[i].account < list[j].account
  }

  lemma {:induction false} ExclusionsAscend(t: Rows, ids: seq<AccountId>, intent: CreateBinding, now: Timestamp)
    requires AccountsAgree(t.accounts) && forall i :: 0 <= i < |ids| ==> ids[i] in t.accounts
    requires forall i, j :: 0 <= i < j < |ids| ==> ids[i] < ids[j]
    ensures InAccountOrder(Exclusions(t, ids, intent, now))
  {
    if ids != [] {
      var rest, last := ids[..|ids| - 1], ids[|ids| - 1];
      ExclusionsAscend(t, rest, intent, now);
      ExclusionsMean(t, rest, intent, now);
      assert t.accounts[last].id == last;
      var before := Exclusions(t, rest, intent, now);
      forall i | 0 <= i < |before|
        ensures before[i].account < last
      {
        assert before[i] in before && before[i].account in rest;
      }
      hide Ineligible;
    }
  }

  /** The account may be tried, but cannot take the thread, for this reason. */
  ghost predicate Excluded(t: Rows, intent: CreateBinding, now: Timestamp, x: AccountExclusion) {
    && x.account in t.accounts && Allowed(intent, x.account) && intent.pool in t.accounts[x.account].pools
    && Reason(t, t.accounts[x.account], intent, now, HeldBy(t, t.accounts[x.account].quotaOwner), x.code)
  }

  /** When no account is fit, the refusal names each one of the pool that was tried, in order, with
      its own reason; a pinned account's reason is the refusal's. */
  lemma UnfitAreNamed(t: Rows, p: Principal, intent: CreateBinding, now: Timestamp, uuid: BindingId)
    requires Consistent(t) && Askable(p, intent, now)
    requires forall id :: id in t.bindings ==> !OfThread(t.bindings[id], p, intent.session)
    requires forall a :: a in t.accounts && Allowed(intent, a) ==> !Fit(t, t.accounts[a], intent, now)
    ensures var r := Bind(t, p, intent, now, uuid).result;
      && r.Err?
      && (forall x :: x in r.error.exclusions <==> Excluded(t, intent, now, x))
      && InAccountOrder(r.error.exclusions)
      && (intent.account.Some? && r.error.exclusions != [] ==> r.error.code == r.error.exclusions[0].code)
      && (r.error.exclusions == [] ==> r.error.code == NoEligibleAccount)
  {
    var list := AllExclusions(t, intent, now);
    UnfitRefusal(t, p, intent, now, uuid);
    UnfitList(t, intent, now);
    hide Consistent, Askable, Fit, Excluded, AllExclusions, Applicable, Bind;
    if intent.account.Some? { PinnedOnly(t, intent, now, list); }
  }

  lemma UnfitRefusal(t: Rows, p: Principal, intent: CreateBinding, now: Timestamp, uuid: BindingId)
    requires Consistent(t) && Askable(p, intent, now)
    requires forall id :: id in t.bindings ==> !OfThread(t.bindings[id], p, intent.session)
    requires forall a :: a in t.accounts && Allowed(intent, a) ==> !Fit(t, t.accounts[a], intent, now)
    ensures Bind(t, p, intent, now, uuid).result == Err(NoEligible(intent, AllExclusions(t, intent, now)))
  {
    if intent.model.Some? { BlankMeans(intent.model.value); }
    if intent.effort.Some? { BlankMeans(intent.effort.value); }
    assert SessionBindings(t, p.id, intent.session) == {};
    forall a | a in t.accounts
      ensures a in EligibleIds(t, intent, now) <==> Allowed(intent, a) && Fit(t, t.accounts[a], intent, now)
    {
      EligibleMeansFit(t, t.accounts[a], intent, now);
      assert t.accounts[a].id == a;
    }
    hide Consistent, BindingsAgree, AllSpaces, Blank, Fit, Ineligible, AllExclusions, NoEligible;
  }

  lemma UnfitList(t: Rows, intent: CreateBinding, now: Timestamp)
    requires Consistent(t)
    requires forall a :: a in t.accounts && Allowed(intent, a) ==> !Fit(t, t.accounts[a], intent, now)
    ensures var list := AllExclusions(t, intent, now);
      InAccountOrder(list) && forall x :: x in list <==> Excluded(t, intent, now, x)
  {
    var ids := Ascending(Candidates(t, intent));
    AscendingElements(Candidates(t, intent));
    forall a | a in t.accounts
      ensures a in ids <==> Allowed(intent, a)
    {
      assert t.accounts[a].id == a;
      assert a in Candidates(t, intent) <==> Allowed(intent, a);
    }
    ExclusionsMean(t, ids, intent, now);
    ExclusionsAscend(t, ids, intent, now);
    forall x: AccountExclusion
      ensures x in AllExclusions(t, intent, now) <==> Excluded(t, intent, now, x)
    {
      if x.account in t.accounts { IneligibleMeans(t, t.accounts[x.account], intent, now, x.code); }
    }
  }

  lemma PinnedOnly(t: Rows, intent: CreateBinding, now: Timestamp, list: seq<AccountExclusion>)
    requires intent.account.Some? && forall x :: x in list ==> Excluded(t, intent, now, x)
    ensures PinnedExclusion(list, intent.account.value) == if list == [] then None else Some(list[0].code)
    ensures NoEligible(intent, list).exclusions == list
  {
    if list != [] { assert list[0] in list; }
  }

  /** A request for a binding that is not in order is told why. */
  lemma UnaskableIsRefused(t: Rows, p: Principal, intent: CreateBinding, now: Timestamp, uuid: BindingId)
    requires !Askable(p, intent, now)
    ensures Bind(t, p, intent, now, uuid).result
      == Err(NewError(if 0 <= now && intent.pool !in p.pools then Unauthorized else InvalidInput))
    ensures Bind(t, p, intent, now, uuid).rows == t
  {
    if intent.model.Some? { BlankMeans(intent.model.value); }
    if intent.effort.Some? { BlankMeans(intent.effort.value); }
    hide AllSpaces, Blank, EligibleIds, AllExclusions, NoEligible;
  }

  /** A thread's lookup finds its own binding, if its pool may be seen. */
  lemma SessionMeans(t: Rows, p: Principal, session: ClientSessionId)
    requires Consistent(t)
    ensures SessionBinding(t, p, session).Some? <==>
      exists id :: id in t.bindings && OfThread(t.bindings[id], p, session) && t.bindings[id].data.intent.pool in p.pools
    ensures SessionBinding(t, p, session).Some? ==> (
      var b := SessionBinding(t, p, session).value;
      && b.id in t.bindings && t.bindings[b.id].data == b && OfThread(t.bindings[b.id], p, session))
  {
    var same := SessionBindings(t, p.id, session);
    forall id | id in t.bindings
      ensures id in same <==> OfThread(t.bindings[id], p, session)
      ensures t.bindings[id].data.id == id
    {
      assert BindingAgrees(id, t.bindings[id], t.accounts.Keys);
    }
    assert forall x, y :: x in same && y in same && x != y ==> !SameSession(t.bindings[x], t.bindings[y]);
    assert forall x :: x in same ==> x == Least(same);
    hide Consistent, BindingsAgree, SessionBindings;
  }

  /** A binding is closed exactly by its own principal with its pool, not before it was made; the
      first close stands, and nothing but the closing time is written. */
  lemma CloseMeans(t: Rows, p: Principal, id: BindingId, now: Timestamp)
    requires Consistent(t)
    ensures var o := CloseBinding(t, p, id, now);
      && (o.result.Ok? <==> 0 <= now && Owns(t, p, id) && t.bindings[id].data.createdAt <= now)
      && (o.result.Err? ==> o.rows == t)
      && (o.result.Err? ==> o.result.error == NewError(if 0 <= now && !Owns(t, p, id) then NotFound else InvalidInput))
      && (o.result.Ok? ==> (
            var b := t.bindings[id].data;
            var closed := b.(closedAt := if b.closedAt.None? then Some(now) else b.closedAt);
            && o.result.value == closed && id in o.rows.bindings
            && o.rows == t.(bindings := t.bindings[id := t.bindings[id].(data := closed)])))
  {
    if Owns(t, p, id) && t.bindings[id].data.closedAt.Some? {
      var b := t.bindings[id].data;
      assert b.(closedAt := b.closedAt) == b;
      assert t.bindings[id := t.bindings[id].(data := b)] == t.bindings;
    }
    hide Consistent;
  }
}
