/** The durable ledger as it runs: an object whose transactions rewrite its
    tables. Every transaction is tied to its function in `Tables`. */
module Ledger {
  import opened Domain
  import T = Tables

  class SqliteLedger {
    var accounts: map<AccountId, Account>
    var policies: map<QuotaOwnerId, QuotaPolicy>
    var observations: map<QuotaOwnerId, UsageObservation>
    var credentials: map<CredentialId, T.CredentialRow>
    var watermarks: map<CredentialId, nat>
    var bindings: map<BindingId, T.BindingRow>
    var attempts: map<AttemptId, T.AttemptRow>

    function Rows(): T.Rows
      reads this
    {
      T.Rows(accounts, policies, observations, credentials, watermarks, bindings, attempts)
    }

    constructor ()
      ensures Rows() == T.EMPTY
    {
      accounts, policies, observations, credentials := map[], map[], map[], map[];
      watermarks, bindings, attempts := map[], map[], map[];
    }

    /** Both tables are scanned, so metadata older than the watermarks still sets a floor. */
    method CredentialFloor(id: CredentialId) returns (floor: Option<nat>)
      ensures floor == T.Floor(Rows(), id)
    {
      var generations := (if id in watermarks then [watermarks[id]] else [])
                       + (if id in credentials then [credentials[id].generation] else []);
      floor := None;
      for i := 0 to |generations|
        invariant i == 0 ==> floor == None
        invariant i == 1 ==> floor == Some(generations[0])
        invariant i == 2 ==> floor == Some(Max(generations[0], generations[1]))
      {
        floor := Some(match floor case None => generations[i] case Some(g) => Max(g, generations[i]));
      }
    }

    method AdvanceCredential(reference: CredentialRef) returns (r: Result<()>)
      modifies this`watermarks
      ensures T.Outcome(Rows(), r) == T.AdvanceCredential(old(Rows()), reference)
    {
      var floor := CredentialFloor(reference.id);
      if floor.Some? && reference.generation < floor.value {
        return Err(NewError(InvalidInput));
      }
      watermarks := watermarks[reference.id := reference.generation];
      r := Ok(());
    }

    method PutAccount(account: Account) returns (r: Result<()>)
      modifies this
      ensures T.Outcome(Rows(), r) == T.PutAccount(old(Rows()), account)
    {
      if account.models == {} || exists model :: model in account.models && Blank(model) {
        return Err(NewError(InvalidInput));
      }
      if account.id in accounts {
        var previous := accounts[account.id];
        if previous.product != account.product || previous.quotaOwner != account.quotaOwner {
          return Err(NewError(InvalidInput));
        }
      }
      var c := account.credential;
      if c.id in credentials {
        var previous := credentials[c.id];
        if previous.owner != account.quotaOwner || previous.product != account.product
           || c.generation < previous.generation {
          return Err(NewError(InvalidInput));
        }
      }
      var advanced := AdvanceCredential(c);
      if advanced.Err? { return advanced; }
      if c.id in credentials {
        credentials := credentials[c.id := credentials[c.id].(generation := c.generation)];
      } else {
        credentials := credentials[c.id := T.CredentialRow(account.quotaOwner, account.product, c.generation)];
      }
      accounts := accounts[account.id := account];
      r := Ok(());
    }

    method PutQuotaPolicy(policy: QuotaPolicy) returns (r: Result<()>)
      modifies this`policies
      ensures T.Outcome(Rows(), r) == T.PutPolicy(old(Rows()), policy)
    {
      if policy.maxConcurrency == 0 { return Err(NewError(InvalidInput)); }
      policies := policies[policy.owner := policy];
      r := Ok(());
    }

    method Observe(o: UsageObservation) returns (r: Result<()>)
      modifies this`observations
      ensures T.Outcome(Rows(), r) == T.Observe(old(Rows()), o)
    {
      if o.observedAt < 0 || o.validUntil <= o.observedAt { return Err(NewError(InvalidInput)); }
      if o.owner in observations {
        var previous := observations[o.owner];
        if o == previous { return Ok(()); }
        if o.observedAt <= previous.observedAt { return Err(NewError(InvalidInput)); }
      }
      observations := observations[o.owner := o];
      r := Ok(());
    }

    method SetAccountEnabled(id: AccountId, enabled: bool) returns (r: Result<()>)
      modifies this`accounts
      ensures T.Outcome(Rows(), r) == T.SetAccountEnabled(old(Rows()), id, enabled)
    {
      if id !in accounts { return Err(NewError(NotFound)); }
      var account := accounts[id];
      accounts := accounts[id := account.(enabled := enabled)];
      r := Ok(());
    }

    method DisableUnenrolled(enrolled: set<AccountId>) returns (r: Result<()>)
      modifies this`accounts
      ensures T.Outcome(Rows(), r) == T.DisableUnenrolled(old(Rows()), enrolled)
    {
      var todo := accounts.Keys;
      while todo != {}
        invariant todo <= accounts.Keys == old(accounts).Keys
        invariant forall id :: id in todo ==> accounts[id] == old(accounts)[id]
        invariant forall id :: id in accounts.Keys - todo ==> accounts[id] == T.Fenced(old(accounts)[id], enrolled)
        decreases todo
      {
        var id :| id in todo;
        todo := todo - {id};
        var account := accounts[id];
        if account.enabled && account.id !in enrolled {
          accounts := accounts[id := account.(enabled := false)];
        }
      }
      r := Ok(());
      assert accounts == T.DisableUnenrolled(old(Rows()), enrolled).rows.accounts;
    }

    method EligibleFor(account: Account, intent: CreateBinding, now: Timestamp) returns (refusal: Option<ErrorCode>)
      ensures refusal == T.Ineligible(Rows(), account, intent, now)
    {
      var owner := account.quotaOwner;
      if !account.enabled { return Some(NoEligibleAccount); }
      if account.product != intent.product || intent.pool !in account.pools
         || (intent.model.Some? && !account.Serves(intent.model.value)) {
        return Some(NoEligibleAccount);
      }
      if owner !in policies { return Some(ErrorCode.CapacityUnknown); }
      var policy := policies[owner];
      var knownAvailable := false;
      if owner in observations {
        var observation := observations[owner];
        match observation.status {
          case Exhausted => return Some(SessionQuotaExhausted);
          case ReauthenticationRequired => return Some(ErrorCode.ReauthenticationRequired);
          case Available => knownAvailable := observation.observedAt <= now < observation.validUntil;
          case Unknown =>
        }
      }
      if !knownAvailable && policy.unknown == Reject { return Some(ErrorCode.CapacityUnknown); }
      var charged := set id | id in attempts && attempts[id].owner == owner && attempts[id].state.HoldsCapacity();
      assert charged == T.Charged(Rows(), owner);
      if |charged| >= policy.maxConcurrency { return Some(SessionConcurrencyExhausted); }
      refusal := None;
    }

    /** The first row of an ordered query. */
    method First(ids: set<nat>) returns (id: nat)
      requires ids != {}
      ensures id == T.Least(ids)
    {
      T.LeastExists(ids);
      id :| id in ids && forall x :: x in ids ==> id <= x;
    }

    method AuthorizedBinding(p: Principal, id: BindingId) returns (r: Result<Binding>)
      ensures r == if T.Authorized(Rows(), p, id) then Ok(bindings[id].data) else Err(NewError(NotFound))
    {
      if id !in bindings || bindings[id].principal != p.id { return Err(NewError(NotFound)); }
      var binding := bindings[id].data;
      if binding.intent.pool !in p.pools { return Err(NewError(NotFound)); }
      r := Ok(binding);
    }

    method Admit(p: Principal, adm: Admission, now: Timestamp, uuid: AttemptId) returns (r: Result<PreparedAttempt>)
      modifies this`attempts
      ensures T.Outcome(Rows(), r) == T.Admit(old(Rows()), p, adm, now, uuid)
    {
      if now < 0 { return Err(NewError(InvalidInput)); }
      if adm.fingerprint == "" || ByteLength(adm.fingerprint) > 128 { return Err(NewError(InvalidInput)); }
      var found := AuthorizedBinding(p, adm.binding);
      if found.Err? { return Err(found.error); }
      var binding := found.value;
      if binding.closedAt.Some? { return Err(NewError(Closed).Bound(binding.id)); }
      if now < binding.createdAt { return Err(NewError(InvalidInput).Bound(binding.id)); }
      if T.PinConflict(binding.intent, adm.model, adm.effort) {
        return Err(NewError(IntentConflict).Bound(binding.id));
      }
      var same := set id | id in attempts && adm.operation.Some? && attempts[id].binding == binding.id
                           && attempts[id].operation == adm.operation;
      assert same == T.SameOperation(Rows(), binding.id, adm.operation);
      if same != {} {
        var id := First(same);
        var previous := attempts[id].data;
        var code := if previous.fingerprint == adm.fingerprint then OperationAlreadyExists else OperationConflict;
        return Err(NewError(code).Bound(binding.id).WithAttempt(previous.id).(requestState := previous.state.Certainty()));
      }
      var uncertain := set id | id in attempts && attempts[id].binding == binding.id && attempts[id].state.Uncertain?;
      assert uncertain == T.UncertainOn(Rows(), binding.id);
      if uncertain != {} {
        var id := First(uncertain);
        return Err(NewError(SessionUncertain).Bound(binding.id).WithAttempt(attempts[id].data.id));
      }
      var active := set id | id in attempts && attempts[id].binding == binding.id && attempts[id].state.Active()
                             && (adm.operation.None? || attempts[id].operation.None?);
      assert active == T.Blocking(Rows(), binding.id, adm.operation);
      if active != {} {
        var id := First(active);
        return Err(NewError(SessionConcurrencyExhausted).Bound(binding.id).WithAttempt(attempts[id].data.id));
      }
      if binding.account !in accounts { return Err(NewError(StorageUnavailable)); }
      var account := accounts[binding.account];
      if !account.Serves(adm.model) { return Err(NewError(NoEligibleAccount).Bound(binding.id)); }
      var refusal := EligibleFor(account, binding.intent, now);
      if refusal.Some? { return Err(NewError(refusal.value).Bound(binding.id)); }
      var floor := CredentialFloor(account.credential.id);
      if floor != Some(account.credential.generation) {
        return Err(NewError(ErrorCode.CredentialUnavailable).Bound(binding.id));
      }
      if uuid in attempts { return Err(NewError(StorageUnavailable)); }
      var attempt := Attempt(uuid, binding.id, account.quotaOwner, adm.operation, adm.fingerprint, account.credential,
                             AttemptState.Reserved, now, now, None);
      attempts := attempts[uuid := T.AttemptRow(binding.id, attempt.quotaOwner, attempt.operation, attempt.state, attempt)];
      r := Ok(PreparedAttempt(attempt, binding, account));
    }

    method LoadAttempt(id: AttemptId) returns (r: Result<Attempt>)
      ensures r == if id in attempts then Ok(attempts[id].data) else Err(NewError(NotFound))
    {
      r := if id in attempts then Ok(attempts[id].data) else Err(NewError(NotFound));
    }

    /** Both copies of the state are written by one statement. */
    method SaveAttempt(a: Attempt)
      modifies this`attempts
      ensures Rows() == T.SaveAttempt(old(Rows()), a)
    {
      if a.id in attempts {
        attempts := attempts[a.id := attempts[a.id].(state := a.state, data := a)];
      }
    }

    method Advance(id: AttemptId, expected: AttemptState, next: AttemptState, now: Timestamp) returns (r: Result<()>)
      modifies this`attempts
      ensures T.Outcome(Rows(), r) == T.Advance(old(Rows()), id, expected, next, now)
    {
      if now < 0 { return Err(NewError(InvalidInput)); }
      var loaded := LoadAttempt(id);
      if loaded.Err? { return Err(loaded.error); }
      var attempt := loaded.value;
      if attempt.state != expected || now < attempt.updatedAt {
        return Err(NewError(InvalidTransition).Bound(attempt.binding));
      }
      attempt := attempt.(state := next);
      attempt := attempt.(updatedAt := now);
      SaveAttempt(attempt);
      r := Ok(());
    }

    method MarkDispatching(id: AttemptId, now: Timestamp) returns (r: Result<()>)
      modifies this`attempts
      ensures T.Outcome(Rows(), r) == T.MarkDispatching(old(Rows()), id, now)
    {
      r := Advance(id, AttemptState.Reserved, AttemptState.Dispatching, now);
    }

    method MarkStreaming(id: AttemptId, now: Timestamp) returns (r: Result<()>)
      modifies this`attempts
      ensures T.Outcome(Rows(), r) == T.MarkStreaming(old(Rows()), id, now)
    {
      r := Advance(id, AttemptState.Dispatching, AttemptState.Streaming, now);
    }

    method Settle(id: AttemptId, outcome: Settlement, now: Timestamp) returns (r: Result<Attempt>)
      modifies this`attempts
      ensures T.Outcome(Rows(), r) == T.Settle(old(Rows()), id, outcome, now)
    {
      if now < 0 { return Err(NewError(InvalidInput)); }
      var loaded := LoadAttempt(id);
      if loaded.Err? { return loaded; }
      var attempt := loaded.value;
      var next := outcome.State();
      if attempt.state == next { return Ok(attempt); }
      var allowed := match attempt.state
        case Reserved => next == AttemptState.NotDispatched
        case Dispatching => true
        case Streaming | Uncertain => next != AttemptState.NotDispatched
        case _ => false;
      if !allowed || now < attempt.updatedAt { return Err(NewError(InvalidTransition).Bound(attempt.binding)); }
      attempt := attempt.(state := next);
      attempt := attempt.(updatedAt := now);
      SaveAttempt(attempt);
      r := Ok(attempt);
    }

    method ResolveAttempt(p: Principal, id: AttemptId, outcome: Settlement, rationale: string, now: Timestamp)
      returns (r: Result<Attempt>)
      modifies this`attempts
      ensures T.Outcome(Rows(), r) == T.ResolveAttempt(old(Rows()), p, id, outcome, rationale, now)
    {
      if now < 0 { return Err(NewError(InvalidInput)); }
      if !p.admin { return Err(NewError(Forbidden)); }
      if !outcome.Evidence() { return Err(NewError(InvalidInput)); }
      var trimmed := T.Trim(rationale);
      if trimmed == "" || ByteLength(trimmed) > 512 { return Err(NewError(InvalidInput)); }
      var loaded := LoadAttempt(id);
      if loaded.Err? { return loaded; }
      var attempt := loaded.value;
      if !T.Visible(Rows(), p, attempt.binding) { return Err(NewError(NotFound)); }
      if attempt.state != AttemptState.Uncertain {
        return Err(NewError(InvalidTransition).Bound(attempt.binding).WithAttempt(attempt.id));
      }
      attempt := attempt.(state := if outcome.Succeeded? then AttemptState.Succeeded else AttemptState.Rejected);
      attempt := attempt.(updatedAt := Max(now, attempt.updatedAt));
      attempt := attempt.(resolution := Some(AttemptResolution(p.id, outcome, trimmed, now)));
      SaveAttempt(attempt);
      r := Ok(attempt);
    }

    /** Startup under exclusive ownership: release what was never dispatched, fence what may have been. */
    method Recover(now: Timestamp) returns (r: Result<()>)
      requires forall id :: id in attempts ==> attempts[id].data.id == id
      modifies this`attempts
      ensures T.Outcome(Rows(), r) == T.Recover(old(Rows()), now)
    {
      if now < 0 { return Err(NewError(InvalidInput)); }
      var todo := set id | id in attempts && attempts[id].state.Active();
      while todo != {}
        invariant todo <= attempts.Keys == old(attempts).Keys
        invariant forall id :: id in todo ==> attempts[id] == old(attempts)[id] && attempts[id].state.Active()
        invariant forall id :: id in attempts.Keys - todo ==> attempts[id] == T.RecoveredRow(old(attempts)[id], now)
        decreases todo
      {
        var id :| id in todo;
        todo := todo - {id};
        var attempt := attempts[id].data;
        attempt := attempt.(state := if attempt.state.Reserved? then AttemptState.NotDispatched
                                     else AttemptState.Uncertain);
        attempt := attempt.(updatedAt := Max(now, attempt.updatedAt));
        SaveAttempt(attempt);
      }
      r := Ok(());
      assert attempts == T.Recover(old(Rows()), now).rows.attempts;
    }

    /** Account identifiers in ascending order, as the query returns them. */
    method Ordered(ids: set<nat>) returns (list: seq<nat>)
      ensures list == T.Ascending(ids)
    {
      list := [];
      var rest := ids;
      while rest != {}
        invariant rest <= ids
        invariant T.Ascending(ids) == list + T.Ascending(rest)
        decreases rest
      {
        var id := First(rest);
        list := list + [id];
        rest := rest - {id};
      }
    }

    method Bind(p: Principal, intent: CreateBinding, now: Timestamp, uuid: BindingId) returns (r: Result<Binding>)
      modifies this`bindings
      ensures T.Outcome(Rows(), r) == T.Bind(old(Rows()), p, intent, now, uuid)
    {
      if now < 0 { return Err(NewError(InvalidInput)); }
      if intent.pool !in p.pools { return Err(NewError(Unauthorized)); }
      if (intent.model.Some? && Blank(intent.model.value)) || (intent.effort.Some? && Blank(intent.effort.value)) {
        return Err(NewError(InvalidInput));
      }
      var existing := set id | id in bindings && bindings[id].principal == p.id && bindings[id].session == intent.session;
      assert existing == T.SessionBindings(Rows(), p.id, intent.session);
      if existing != {} {
        var id := First(existing);
        var binding := bindings[id].data;
        if binding.intent.pool !in p.pools { return Err(NewError(NotFound)); }
        if binding.closedAt.Some? { return Err(NewError(Closed).Bound(binding.id)); }
        if binding.intent != intent { return Err(NewError(IntentConflict).Bound(binding.id)); }
        return Ok(binding);
      }
      var selected, exclusions := SelectAccount(intent, now);
      if selected.None? { return Err(T.NoEligible(intent, exclusions)); }
      var account := selected.value;
      if uuid in bindings { return Err(NewError(StorageUnavailable)); }
      var binding := Binding(uuid, p.id, intent, account.id, now, None);
      bindings := bindings[uuid := T.BindingRow(p.id, intent.session, account.id, binding)];
      r := Ok(binding);
    }

    /** Walk the accounts in order; the first one that can serve wins, the rest explain themselves. */
    method SelectAccount(intent: CreateBinding, now: Timestamp)
      returns (selected: Option<Account>, exclusions: seq<AccountExclusion>)
      ensures var eligible := T.EligibleIds(Rows(), intent, now);
        && selected == (if eligible == {} then None else Some(accounts[T.Least(eligible)]))
        && (eligible == {} ==> exclusions == T.AllExclusions(Rows(), intent, now))
    {
      ghost var t := Rows();
      var ids := T.Candidates(Rows(), intent);
      var candidates := Ordered(ids);
      T.AscendingSubset(ids);
      exclusions := [];
      selected := None;
      var i := 0;
      while i < |candidates|
        invariant 0 <= i <= |candidates|
        invariant T.AllExcluded(t, candidates[..i], intent, now)
        invariant exclusions == T.Exclusions(t, candidates[..i], intent, now)
      {
        var account := accounts[candidates[i]];
        var refusal := EligibleFor(account, intent, now);
        if refusal.None? {
          FirstEligible(t, candidates, intent, now, i);
          selected := Some(account);
          return;
        }
        T.ExcludeNext(t, candidates, intent, now, i);
        if intent.pool in account.pools {
          exclusions := exclusions + [AccountExclusion(account.id, refusal.value)];
        }
        i := i + 1;
      }
      T.NoneEligible(t, candidates, intent, now);
      assert candidates[..i] == candidates;
    }

    static lemma FirstEligible(t: T.Rows, candidates: seq<AccountId>, intent: CreateBinding, now: Timestamp, i: nat)
      requires i < |candidates| && candidates == T.Ascending(T.Candidates(t, intent))
      requires forall k :: 0 <= k < |candidates| ==> candidates[k] in t.accounts
      requires T.AllExcluded(t, candidates[..i], intent, now)
      requires T.Ineligible(t, t.accounts[candidates[i]], intent, now).None?
      ensures T.EligibleIds(t, intent, now) != {} && T.Least(T.EligibleIds(t, intent, now)) == candidates[i]
    {
      var eligible := T.EligibleIds(t, intent, now);
      T.AscendingElements(T.Candidates(t, intent));
      assert candidates[i] in eligible;
      assert forall k :: 0 <= k < i ==> candidates[k] == candidates[..i][k] && candidates[k] !in eligible;
      forall x | x in eligible
        ensures candidates[i] <= x
      {
        var k :| 0 <= k < |candidates| && candidates[k] == x;
      }
    }

    method CloseBinding(p: Principal, id: BindingId, now: Timestamp) returns (r: Result<Binding>)
      modifies this`bindings
      ensures T.Outcome(Rows(), r) == T.CloseBinding(old(Rows()), p, id, now)
    {
      if now < 0 { return Err(NewError(InvalidInput)); }
      var found := AuthorizedBinding(p, id);
      if found.Err? { return found; }
      var binding := found.value;
      if now < binding.createdAt { return Err(NewError(InvalidInput)); }
      if binding.closedAt.None? {
        binding := binding.(closedAt := Some(now));
        bindings := bindings[id := bindings[id].(data := binding)];
      }
      r := Ok(binding);
    }
  }
}
