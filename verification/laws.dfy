/** What every ledger transaction keeps, whatever order they commit in. */
module Laws {
  import opened Domain
  import opened Tables

  // ------------------------------------------------------------ well-formed rows

  type Attempts = map<AttemptId, AttemptRow>
  type Bindings = map<BindingId, BindingRow>
  type Accounts = map<AccountId, Account>

  /** Columns agree with the record they index, and the state kept twice is one state. */
  ghost predicate AttemptAgrees(id: AttemptId, row: AttemptRow, bindings: set<BindingId>) {
    && row.data.id == id
    && row.state == row.data.state
    && row.owner == row.data.quotaOwner
    && row.binding == row.data.binding
    && row.operation == row.data.operation
    && row.binding in bindings
    && Annotated(row)
  }

  /** Only an attempt closed by hand carries an operator's rationale. */
  predicate Annotated(row: AttemptRow) {
    row.data.resolution.Some? ==> row.state.Succeeded? || row.state.Rejected?
  }

  ghost predicate AttemptsAgree(attempts: Attempts, bindings: set<BindingId>) {
    forall id :: id in attempts ==> AttemptAgrees(id, attempts[id], bindings)
  }

  ghost predicate BindingAgrees(id: BindingId, row: BindingRow, accounts: set<AccountId>) {
    && row.data.id == id
    && row.principal == row.data.principal
    && row.session == row.data.intent.session
    && row.account == row.data.account
    && row.account in accounts
  }

  ghost predicate BindingsAgree(bindings: Bindings, accounts: set<AccountId>) {
    forall id :: id in bindings ==> BindingAgrees(id, bindings[id], accounts)
  }

  ghost predicate AccountsAgree(accounts: Accounts) {
    forall id :: id in accounts ==> accounts[id].id == id
  }

  predicate ClashingOperations(x: AttemptRow, y: AttemptRow) {
    x.binding == y.binding && x.operation.Some? && x.operation == y.operation
  }

  /** Work without an operation identifier runs alone on its binding. */
  predicate ClashingWork(x: AttemptRow, y: AttemptRow) {
    && x.binding == y.binding && x.state.Active() && y.state.Active()
    && (x.operation.None? || y.operation.None?)
  }

  ghost predicate UniqueOperations(attempts: Attempts) {
    forall x, y :: x in attempts && y in attempts && x != y ==> !ClashingOperations(attempts[x], attempts[y])
  }

  ghost predicate Exclusive(attempts: Attempts) {
    forall x, y :: x in attempts && y in attempts && x != y ==> !ClashingWork(attempts[x], attempts[y])
  }

  predicate SameSession(x: BindingRow, y: BindingRow) {
    x.principal == y.principal && x.session == y.session
  }

  ghost predicate UniqueSessions(bindings: Bindings) {
    forall x, y :: x in bindings && y in bindings && x != y ==> !SameSession(bindings[x], bindings[y])
  }

  ghost predicate Consistent(t: Rows) {
    && AttemptsAgree(t.attempts, t.bindings.Keys)
    && BindingsAgree(t.bindings, t.accounts.Keys)
    && AccountsAgree(t.accounts)
    && UniqueOperations(t.attempts)
    && UniqueSessions(t.bindings)
    && Exclusive(t.attempts)
  }

  // ---------------------------------------------------------- how rows may change

  /** States an attempt can be in at any time after `from`. */
  predicate Reachable(from: AttemptState, to: AttemptState) {
    match from
    case Reserved => true
    case Dispatching => !to.Reserved?
    case Streaming => to.Streaming? || to.Uncertain? || to.Succeeded? || to.Rejected?
    case Uncertain => to.Uncertain? || to.Succeeded? || to.Rejected?
    case _ => to == from
  }

  ghost predicate AttemptEvolves(x: AttemptRow, y: AttemptRow) {
    && y.binding == x.binding && y.owner == x.owner && y.operation == x.operation
    && y.data.fingerprint == x.data.fingerprint && y.data.credential == x.data.credential
    && y.data.createdAt == x.data.createdAt && y.data.updatedAt >= x.data.updatedAt
    && (x.data.resolution.Some? ==> y.data.resolution == x.data.resolution)
    && Reachable(x.state, y.state)
  }

  ghost predicate AttemptsEvolve(m: Attempts, n: Attempts) {
    forall id :: id in m ==> id in n && AttemptEvolves(m[id], n[id])
  }

  ghost predicate BindingEvolves(x: BindingRow, y: BindingRow) {
    && (y == x || (x.data.closedAt.None? && y.data.closedAt.Some?))
    && y.(data := y.data.(closedAt := None)) == x.(data := x.data.(closedAt := None))
  }

  ghost predicate BindingsEvolve(m: Bindings, n: Bindings) {
    forall id :: id in m ==> id in n && BindingEvolves(m[id], n[id])
  }

  ghost predicate AccountsEvolve(m: Accounts, n: Accounts) {
    forall id :: id in m ==> id in n && n[id].product == m[id].product && n[id].quotaOwner == m[id].quotaOwner
  }

  ghost predicate Raises(x: Option<nat>, y: Option<nat>) {
    x.Some? ==> y.Some? && x.value <= y.value
  }

  ghost predicate FloorsRise(t: Rows, u: Rows) {
    forall c :: Raises(Floor(t, c), Floor(u, c))
  }

  /** Nothing is forgotten: rows stay, identities are fixed, and states only move forward. */
  ghost predicate Evolves(t: Rows, u: Rows) {
    && AttemptsEvolve(t.attempts, u.attempts)
    && BindingsEvolve(t.bindings, u.bindings)
    && AccountsEvolve(t.accounts, u.accounts)
    && FloorsRise(t, u)
  }

  lemma AttemptsStay(m: Attempts)
    ensures AttemptsEvolve(m, m)
  {
  }

  lemma BindingsStay(m: Bindings)
    ensures BindingsEvolve(m, m)
  {
  }

  lemma AccountsStay(m: Accounts)
    ensures AccountsEvolve(m, m)
  {
  }

  lemma FloorsStay(t: Rows, u: Rows)
    requires u.credentials == t.credentials && u.watermarks == t.watermarks
    ensures FloorsRise(t, u)
  {
  }

  lemma EvolvesReflexively(t: Rows)
    ensures Evolves(t, t)
  {
    AttemptsStay(t.attempts);
    BindingsStay(t.bindings);
    AccountsStay(t.accounts);
    FloorsStay(t, t);
  }

  lemma EvolvesTransitively(t: Rows, u: Rows, v: Rows)
    requires Evolves(t, u) && Evolves(u, v)
    ensures Evolves(t, v)
  {
    forall c
      ensures Raises(Floor(t, c), Floor(v, c))
    {
      assert Raises(Floor(t, c), Floor(u, c)) && Raises(Floor(u, c), Floor(v, c));
    }
  }

  // ------------------------------------------------------------ each transaction

  /** Charges to an owner can only be given back. */
  ghost predicate ReleasesOnly(t: Rows, u: Rows) {
    forall owner :: Charged(u, owner) <= Charged(t, owner)
  }

  lemma SmallerIsFewer(a: set<nat>, b: set<nat>)
    requires a <= b
    ensures |a| <= |b|
  {
    if a != b {
      assert exists x :: x in b && x !in a;
      var x :| x in b && x !in a;
      SmallerIsFewer(a, b - {x});
    }
  }

  lemma ReleasesLowerPressure(t: Rows, u: Rows, owner: QuotaOwnerId)
    requires ReleasesOnly(t, u)
    ensures Pressure(u, owner) <= Pressure(t, owner)
  {
    SmallerIsFewer(Charged(u, owner), Charged(t, owner));
  }

  /** Rows a transaction left alone keep their laws; a changed account or floor must keep its own. */
  lemma OnlyAccountsChange(t: Rows, u: Rows)
    requires Consistent(t) && u.attempts == t.attempts && u.bindings == t.bindings
    requires AccountsAgree(u.accounts) && AccountsEvolve(t.accounts, u.accounts) && FloorsRise(t, u)
    ensures Consistent(u) && Evolves(t, u)
  {
    assert t.accounts.Keys <= u.accounts.Keys;
    MoreAccounts(t.bindings, t.accounts.Keys, u.accounts.Keys);
    AttemptsStay(t.attempts);
    BindingsStay(t.bindings);
  }

  lemma MoreAccounts(bindings: Bindings, a: set<AccountId>, b: set<AccountId>)
    requires BindingsAgree(bindings, a) && a <= b
    ensures BindingsAgree(bindings, b)
  {
  }

  lemma MoreBindings(attempts: Attempts, a: set<BindingId>, b: set<BindingId>)
    requires AttemptsAgree(attempts, a) && a <= b
    ensures AttemptsAgree(attempts, b)
  {
  }

  lemma CredentialKeeps(t: Rows, reference: CredentialRef)
    requires Consistent(t)
    ensures var u := AdvanceCredential(t, reference).rows;
      Consistent(u) && Evolves(t, u) && u.attempts == t.attempts
  {
    var u := AdvanceCredential(t, reference).rows;
    FloorAdvances(t, reference);
    AccountsStay(t.accounts);
    OnlyAccountsChange(t, u);
  }

  lemma FloorAdvances(t: Rows, reference: CredentialRef)
    ensures FloorsRise(t, AdvanceCredential(t, reference).rows)
    ensures AdvanceCredential(t, reference).result.Ok? ==>
      Floor(AdvanceCredential(t, reference).rows, reference.id) == Some(reference.generation)
  {
  }

  /** An accepted account always carries the floor generation of its credential. */
  lemma PutAccountFloor(t: Rows, account: Account)
    ensures FloorsRise(t, PutAccount(t, account).rows)
    ensures PutAccount(t, account).result.Ok? ==>
      Floor(PutAccount(t, account).rows, account.credential.id) == Some(account.credential.generation)
  {
    FloorAdvances(t, account.credential);
  }

  lemma PutAccountAccounts(t: Rows, account: Account)
    requires AccountsAgree(t.accounts)
    ensures AccountsAgree(PutAccount(t, account).rows.accounts)
    ensures AccountsEvolve(t.accounts, PutAccount(t, account).rows.accounts)
  {
  }

  lemma PutAccountKeeps(t: Rows, account: Account)
    requires Consistent(t)
    ensures var u := PutAccount(t, account).rows;
      Consistent(u) && Evolves(t, u) && u.attempts == t.attempts
  {
    PutAccountFloor(t, account);
    PutAccountAccounts(t, account);
    OnlyAccountsChange(t, PutAccount(t, account).rows);
  }

  lemma PolicyKeeps(t: Rows, policy: QuotaPolicy)
    requires Consistent(t)
    ensures var u := PutPolicy(t, policy).rows;
      Consistent(u) && Evolves(t, u) && u.attempts == t.attempts
  {
    AccountsStay(t.accounts);
    FloorsStay(t, PutPolicy(t, policy).rows);
    OnlyAccountsChange(t, PutPolicy(t, policy).rows);
  }

  /** Evidence about an owner is only ever replaced by later evidence. */
  lemma ObserveKeeps(t: Rows, o: UsageObservation)
    requires Consistent(t)
    ensures var u := Observe(t, o).rows;
      && Consistent(u) && Evolves(t, u) && u.attempts == t.attempts
      && (forall owner :: owner in t.observations ==> (
            && owner in u.observations
            && (u.observations[owner] == t.observations[owner]
                || u.observations[owner].observedAt > t.observations[owner].observedAt)))
  {
    AccountsStay(t.accounts);
    FloorsStay(t, Observe(t, o).rows);
    OnlyAccountsChange(t, Observe(t, o).rows);
  }

  lemma EnableAccounts(t: Rows, id: AccountId, enabled: bool)
    requires AccountsAgree(t.accounts)
    ensures AccountsAgree(SetAccountEnabled(t, id, enabled).rows.accounts)
    ensures AccountsEvolve(t.accounts, SetAccountEnabled(t, id, enabled).rows.accounts)
  {
  }

  lemma EnableKeeps(t: Rows, id: AccountId, enabled: bool)
    requires Consistent(t)
    ensures var u := SetAccountEnabled(t, id, enabled).rows;
      Consistent(u) && Evolves(t, u) && u.attempts == t.attempts
  {
    EnableAccounts(t, id, enabled);
    FloorsStay(t, SetAccountEnabled(t, id, enabled).rows);
    OnlyAccountsChange(t, SetAccountEnabled(t, id, enabled).rows);
  }

  lemma FenceKeeps(t: Rows, enrolled: set<AccountId>)
    requires Consistent(t)
    ensures var u := DisableUnenrolled(t, enrolled).rows;
      Consistent(u) && Evolves(t, u) && u.attempts == t.attempts
  {
    var u := DisableUnenrolled(t, enrolled).rows;
    assert AccountsAgree(u.accounts) && AccountsEvolve(t.accounts, u.accounts);
    FloorsStay(t, u);
    OnlyAccountsChange(t, u);
  }

  lemma OnlyBindingsChange(t: Rows, u: Rows)
    requires Consistent(t) && u == t.(bindings := u.bindings)
    requires BindingsAgree(u.bindings, t.accounts.Keys) && UniqueSessions(u.bindings)
    requires BindingsEvolve(t.bindings, u.bindings)
    ensures Consistent(u) && Evolves(t, u)
  {
    assert t.bindings.Keys <= u.bindings.Keys;
    MoreBindings(t.attempts, t.bindings.Keys, u.bindings.Keys);
    AttemptsStay(t.attempts);
    AccountsStay(t.accounts);
    FloorsStay(t, u);
  }

  lemma NewBinding(bindings: Bindings, accounts: set<AccountId>, id: BindingId, row: BindingRow)
    requires BindingsAgree(bindings, accounts) && UniqueSessions(bindings)
    requires id !in bindings && BindingAgrees(id, row, accounts)
    requires forall x :: x in bindings ==> !SameSession(bindings[x], row)
    ensures var n := bindings[id := row]; BindingsAgree(n, accounts) && UniqueSessions(n) && BindingsEvolve(bindings, n)
  {
  }

  /** A session name leads to at most one binding: the one it has, or the one just made for it. */
  lemma BindKeeps(t: Rows, p: Principal, intent: CreateBinding, now: Timestamp, uuid: BindingId)
    requires Consistent(t)
    ensures var o := Bind(t, p, intent, now, uuid);
      Consistent(o.rows) && Evolves(t, o.rows) && o.rows.attempts == t.attempts
  {
    var o := Bind(t, p, intent, now, uuid);
    if o.rows == t {
      EvolvesReflexively(t);
    } else {
      forall x | x in t.bindings
        ensures !SameSession(t.bindings[x], o.rows.bindings[uuid])
      {
        assert x !in SessionBindings(t, p.id, intent.session);
      }
      NewBinding(t.bindings, t.accounts.Keys, uuid, o.rows.bindings[uuid]);
      OnlyBindingsChange(t, o.rows);
    }
  }

  lemma BindFinds(t: Rows, p: Principal, intent: CreateBinding, now: Timestamp, uuid: BindingId)
    requires Consistent(t) && Bind(t, p, intent, now, uuid).result.Ok?
    ensures var o := Bind(t, p, intent, now, uuid); var id := o.result.value.id;
      && id in o.rows.bindings && o.rows.bindings[id].data == o.result.value
      && o.rows.bindings[id].principal == p.id && o.rows.bindings[id].session == intent.session
      && o.result.value.intent == intent && o.result.value.closedAt.None?
  {
  }

  lemma CloseKeeps(t: Rows, p: Principal, id: BindingId, now: Timestamp)
    requires Consistent(t)
    ensures var u := CloseBinding(t, p, id, now).rows;
      Consistent(u) && Evolves(t, u) && u.attempts == t.attempts
  {
    var u := CloseBinding(t, p, id, now).rows;
    if u == t {
      EvolvesReflexively(t);
    } else {
      ClosedBinding(t.bindings, t.accounts.Keys, id, u.bindings[id]);
      OnlyBindingsChange(t, u);
    }
  }

  lemma ClosedBinding(bindings: Bindings, accounts: set<AccountId>, id: BindingId, row: BindingRow)
    requires BindingsAgree(bindings, accounts) && UniqueSessions(bindings)
    requires id in bindings && BindingEvolves(bindings[id], row)
    ensures var n := bindings[id := row]; BindingsAgree(n, accounts) && UniqueSessions(n) && BindingsEvolve(bindings, n)
  {
    assert row.data == bindings[id].data.(closedAt := row.data.closedAt);
  }

  /** Laws of the attempts alone; the other tables do not move. */
  ghost predicate AttemptLaws(attempts: Attempts, bindings: set<BindingId>) {
    AttemptsAgree(attempts, bindings) && UniqueOperations(attempts) && Exclusive(attempts)
  }

  lemma OnlyAttemptsChange(t: Rows, u: Rows)
    requires Consistent(t) && u == t.(attempts := u.attempts)
    requires AttemptLaws(u.attempts, t.bindings.Keys) && AttemptsEvolve(t.attempts, u.attempts)
    ensures Consistent(u) && Evolves(t, u)
  {
    BindingsStay(t.bindings);
    AccountsStay(t.accounts);
    FloorsStay(t, u);
  }

  /** A row moved forward without waking it up again. */
  ghost predicate Forward(x: AttemptRow, y: AttemptRow) {
    && AttemptEvolves(x, y)
    && y.data.id == x.data.id && y.state == y.data.state
    && y.owner == y.data.quotaOwner && y.binding == y.data.binding && y.operation == y.data.operation
    && Annotated(y)
    && (y.state.HoldsCapacity() ==> x.state.HoldsCapacity())
    && (y.state.Active() ==> x.state.Active())
  }

  ghost predicate AllForward(m: Attempts, n: Attempts) {
    n.Keys == m.Keys && forall id :: id in m ==> Forward(m[id], n[id])
  }

  lemma ForwardKeeps(t: Rows, u: Rows)
    requires Consistent(t) && u == t.(attempts := u.attempts) && AllForward(t.attempts, u.attempts)
    ensures Consistent(u) && Evolves(t, u) && ReleasesOnly(t, u)
  {
    ForwardAgree(t.attempts, u.attempts, t.bindings.Keys);
    ForwardUnique(t.attempts, u.attempts);
    ForwardExclusive(t.attempts, u.attempts);
    OnlyAttemptsChange(t, u);
    forall owner
      ensures Charged(u, owner) <= Charged(t, owner)
    {
      ForwardReleases(t, u, owner);
    }
  }

  lemma ForwardAgree(m: Attempts, n: Attempts, bindings: set<BindingId>)
    requires AllForward(m, n) && AttemptsAgree(m, bindings)
    ensures AttemptsAgree(n, bindings) && AttemptsEvolve(m, n)
  {
  }

  lemma ForwardUnique(m: Attempts, n: Attempts)
    requires AllForward(m, n) && UniqueOperations(m)
    ensures UniqueOperations(n)
  {
    forall x, y | x in n && y in n && x != y
      ensures !ClashingOperations(n[x], n[y])
    {
      assert Forward(m[x], n[x]) && Forward(m[y], n[y]) && !ClashingOperations(m[x], m[y]);
    }
  }

  lemma ForwardExclusive(m: Attempts, n: Attempts)
    requires AllForward(m, n) && Exclusive(m)
    ensures Exclusive(n)
  {
    forall x, y | x in n && y in n && x != y
      ensures !ClashingWork(n[x], n[y])
    {
      assert Forward(m[x], n[x]) && Forward(m[y], n[y]) && !ClashingWork(m[x], m[y]);
    }
  }

  lemma ForwardReleases(t: Rows, u: Rows, owner: QuotaOwnerId)
    requires AllForward(t.attempts, u.attempts)
    ensures Charged(u, owner) <= Charged(t, owner)
  {
  }

  /** A transition of one attempt that its caller has already checked. */
  lemma SaveKeeps(t: Rows, a: Attempt)
    requires Consistent(t) && a.id in t.attempts
    requires Forward(t.attempts[a.id], t.attempts[a.id].(state := a.state, data := a))
    ensures var u := SaveAttempt(t, a); Consistent(u) && Evolves(t, u) && ReleasesOnly(t, u)
  {
    var u := SaveAttempt(t, a);
    assert AllForward(t.attempts, u.attempts) by {
      forall id | id in t.attempts
        ensures Forward(t.attempts[id], u.attempts[id])
      {
        assert AttemptAgrees(id, t.attempts[id], t.bindings.Keys);
      }
    }
    ForwardKeeps(t, u);
  }

  lemma RecoverForward(t: Rows, now: Timestamp)
    requires Consistent(t) && now >= 0
    ensures AllForward(t.attempts, Recover(t, now).rows.attempts)
    ensures forall id :: id in Recover(t, now).rows.attempts ==> !Recover(t, now).rows.attempts[id].state.Active()
  {
    var u := Recover(t, now).rows;
    forall id | id in t.attempts
      ensures id in u.attempts && Forward(t.attempts[id], u.attempts[id]) && !u.attempts[id].state.Active()
    {
      assert AttemptAgrees(id, t.attempts[id], t.bindings.Keys);
    }
  }

  /** Startup leaves nothing running, whatever the crash interrupted. */
  lemma RecoverKeeps(t: Rows, now: Timestamp)
    requires Consistent(t)
    ensures var o := Recover(t, now);
      && Consistent(o.rows) && Evolves(t, o.rows) && ReleasesOnly(t, o.rows)
      && (o.result.Ok? ==> forall id :: id in o.rows.attempts ==> !o.rows.attempts[id].state.Active())
  {
    hide Consistent, Evolves, AllForward, RecoveredRow;
    if now < 0 {
      EvolvesReflexively(t);
    } else {
      RecoverForward(t, now);
      ForwardKeeps(t, Recover(t, now).rows);
    }
  }

  /** A claim is only ever granted below the cap, to work its binding has room for,
      under the newest generation of the account's credential. */
  lemma AdmitGrants(t: Rows, p: Principal, adm: Admission, now: Timestamp, uuid: AttemptId)
    requires Consistent(t)
    requires Admit(t, p, adm, now, uuid).result.Ok?
    ensures var o := Admit(t, p, adm, now, uuid); var a := o.result.value.attempt;
      && o.rows == InsertAttempt(t, a) && a.id == uuid && uuid !in t.attempts && a.binding == adm.binding
      && a.state.Reserved? && a.createdAt == a.updatedAt == now && now >= 0 && a.resolution.None?
      && a.binding in t.bindings && t.bindings[a.binding].principal == p.id
      && t.bindings[a.binding].data.closedAt.None?
      && a.quotaOwner == t.accounts[t.bindings[a.binding].account].quotaOwner
      && a.quotaOwner in t.policies && Pressure(t, a.quotaOwner) < t.policies[a.quotaOwner].maxConcurrency
      && UncertainOn(t, a.binding) == {} && SameOperation(t, a.binding, a.operation) == {}
      && Blocking(t, a.binding, a.operation) == {}
      && Floor(t, a.credential.id) == Some(a.credential.generation)
  {
  }

  lemma InsertLaws(m: Attempts, bindings: set<BindingId>, id: AttemptId, row: AttemptRow)
    requires AttemptLaws(m, bindings) && id !in m && AttemptAgrees(id, row, bindings)
    requires forall x :: x in m ==> !ClashingOperations(m[x], row) && !ClashingWork(m[x], row)
    ensures var n := m[id := row]; AttemptLaws(n, bindings) && AttemptsEvolve(m, n)
  {
    var n := m[id := row];
    forall x, y | x in n && y in n && x != y
      ensures !ClashingOperations(n[x], n[y]) && !ClashingWork(n[x], n[y])
    {
      if x in m && y in m {
        assert !ClashingOperations(m[x], m[y]) && !ClashingWork(m[x], m[y]);
      }
    }
  }

  lemma InsertKeeps(t: Rows, a: Attempt)
    requires Consistent(t) && a.id !in t.attempts && a.binding in t.bindings && a.resolution.None?
    requires SameOperation(t, a.binding, a.operation) == {} && Blocking(t, a.binding, a.operation) == {}
    ensures var u := InsertAttempt(t, a); Consistent(u) && Evolves(t, u)
  {
    var u := InsertAttempt(t, a);
    forall x | x in t.attempts
      ensures !ClashingOperations(t.attempts[x], u.attempts[a.id]) && !ClashingWork(t.attempts[x], u.attempts[a.id])
    {
      assert x !in SameOperation(t, a.binding, a.operation) && x !in Blocking(t, a.binding, a.operation);
    }
    InsertLaws(t.attempts, t.bindings.Keys, a.id, u.attempts[a.id]);
    OnlyAttemptsChange(t, u);
  }

  lemma InsertRaisesPressure(t: Rows, a: Attempt, owner: QuotaOwnerId)
    requires a.id !in t.attempts && a.state.Reserved?
    ensures Pressure(InsertAttempt(t, a), owner) == Pressure(t, owner) + if owner == a.quotaOwner then 1 else 0
  {
    var u := InsertAttempt(t, a);
    assert Charged(u, owner) == Charged(t, owner) + if owner == a.quotaOwner then {a.id} else {};
  }

  /** The column count is the true count: the records themselves say the same. */
  lemma CountsAreTrue(t: Rows, owner: QuotaOwnerId)
    requires Consistent(t)
    ensures Pressure(t, owner) ==
      |set id | id in t.attempts && t.attempts[id].data.quotaOwner == owner
                && t.attempts[id].data.state in {AttemptState.Reserved, Dispatching, Streaming, AttemptState.Uncertain}|
  {
    assert Charged(t, owner) ==
      set id | id in t.attempts && t.attempts[id].data.quotaOwner == owner
               && t.attempts[id].data.state in {AttemptState.Reserved, Dispatching, Streaming, AttemptState.Uncertain};
  }

  // --------------------------------------------------------------- what is let through

  /** An attempt that holds one of its owner's places. */
  predicate Holding(row: AttemptRow) {
    row.state == AttemptState.Reserved || row.state == Dispatching || row.state == Streaming || row.state == AttemptState.Uncertain
  }

  /** How many places of an owner are held. */
  ghost function HeldBy(t: Rows, owner: QuotaOwnerId): nat {
    |set id | id in t.attempts && t.attempts[id].owner == owner && Holding(t.attempts[id])|
  }

  lemma HeldIsPressure(t: Rows, owner: QuotaOwnerId)
    ensures Pressure(t, owner) == HeldBy(t, owner)
  {
    assert Charged(t, owner) == set id | id in t.attempts && t.attempts[id].owner == owner && Holding(t.attempts[id]);
  }

  predicate Offers(account: Account, model: string) { "*" in account.models || model in account.models }

  /** The account may take one more request: in service, asked for, under its cap, and not
      known or, where the policy insists, not feared to be out of capacity. */
  ghost predicate Fit(t: Rows, account: Account, intent: CreateBinding, now: Timestamp) {
    var owner := account.quotaOwner;
    && account.enabled && account.product == intent.product && intent.pool in account.pools
    && (intent.model.Some? ==> Offers(account, intent.model.value))
    && owner in t.policies && HeldBy(t, owner) < t.policies[owner].maxConcurrency
    && (owner in t.observations ==>
          t.observations[owner].status != Exhausted && t.observations[owner].status != CapacityStatus.ReauthenticationRequired)
    && (t.policies[owner].unknown == AllowUnderLocalCap
        || (owner in t.observations && t.observations[owner].status == Available
            && t.observations[owner].observedAt <= now < t.observations[owner].validUntil))
  }

  lemma EligibleMeansFit(t: Rows, account: Account, intent: CreateBinding, now: Timestamp)
    ensures Ineligible(t, account, intent, now).None? <==> Fit(t, account, intent, now)
  {
    HeldIsPressure(t, account.quotaOwner);
    hide Pressure, HeldBy;
  }

  /** An admission only ever goes to an account that is fit for it and serves its model. */
  lemma AdmitIsFit(t: Rows, p: Principal, adm: Admission, now: Timestamp, uuid: AttemptId)
    requires Admit(t, p, adm, now, uuid).result.Ok?
    ensures var r := Admit(t, p, adm, now, uuid).result.value;
      && r.account == t.accounts[r.binding.account] && r.binding == t.bindings[adm.binding].data
      && Fit(t, r.account, r.binding.intent, now) && Offers(r.account, adm.model)
      && (r.binding.intent.model.Some? ==> r.binding.intent.model.value == adm.model)
      && (r.binding.intent.effort.Some? ==> r.binding.intent.effort == adm.effort)
  {
    var binding := t.bindings[adm.binding].data;
    EligibleMeansFit(t, t.accounts[binding.account], binding.intent, now);
    hide Fit, Ineligible, Floor;
  }

  /** The account the intent allows, if it pins one. */
  ghost predicate Allowed(intent: CreateBinding, id: AccountId) {
    intent.account.Some? ==> intent.account.value == id
  }

  /** A new binding goes to the first fit account; there is none exactly when it is refused for want of one. */
  lemma BindIsFit(t: Rows, p: Principal, intent: CreateBinding, now: Timestamp, uuid: BindingId)
    requires AccountsAgree(t.accounts) && uuid !in t.bindings && Bind(t, p, intent, now, uuid).rows != t
    ensures var b := Bind(t, p, intent, now, uuid).result.value;
      && b.id == uuid && b.principal == p.id && intent.pool in p.pools
      && b.account in t.accounts && Allowed(intent, b.account) && Fit(t, t.accounts[b.account], intent, now)
      && forall id :: id in t.accounts && Allowed(intent, id) && Fit(t, t.accounts[id], intent, now) ==> b.account <= id
  {
    var b := Bind(t, p, intent, now, uuid).result.value;
    forall id | id in t.accounts
      ensures id in EligibleIds(t, intent, now) <==> Allowed(intent, id) && Fit(t, t.accounts[id], intent, now)
    {
      EligibleMeansFit(t, t.accounts[id], intent, now);
    }
    hide Fit, Ineligible;
  }

  /** Fencing takes exactly the unenrolled accounts out of service, and changes nothing else of any. */
  lemma FenceIsExact(t: Rows, enrolled: set<AccountId>, id: AccountId)
    requires AccountsAgree(t.accounts) && id in t.accounts
    ensures var u := DisableUnenrolled(t, enrolled).rows;
      id in u.accounts && u.accounts[id] == t.accounts[id].(enabled := t.accounts[id].enabled && id in enrolled)
  {
    assert t.accounts[id].id == id;
  }

  /** Recovery fences what may have been sent, releases what was not, and touches nothing settled. */
  lemma RecoverySorts(t: Rows, now: Timestamp, id: AttemptId)
    requires Consistent(t) && id in t.attempts && Recover(t, now).result.Ok?
    ensures var r, u := t.attempts[id], Recover(t, now).rows.attempts[id];
      if r.state.Reserved? then u.state.NotDispatched? && u.data.state.NotDispatched?
      else if r.state.Dispatching? || r.state.Streaming? then u.state.Uncertain? && u.data.state.Uncertain?
      else u == r
  {
    assert AttemptAgrees(id, t.attempts[id], t.bindings.Keys);
  }

  /** An operator's resolution is an administrator's, inside its pools, of an uncertain attempt,
      to a provider outcome, and says who and why. */
  lemma ResolutionIsAccountable(t: Rows, p: Principal, id: AttemptId, outcome: Settlement, rationale: string, now: Timestamp)
    requires Consistent(t) && ResolveAttempt(t, p, id, outcome, rationale, now).result.Ok?
    ensures var a := ResolveAttempt(t, p, id, outcome, rationale, now).result.value; var b := t.attempts[id].binding;
      && p.admin && b in t.bindings && t.bindings[b].data.intent.pool in p.pools
      && t.attempts[id].state.Uncertain? && outcome.Evidence() && a.state == outcome.State()
      && a.resolution.Some? && a.resolution.value.principal == p.id && a.resolution.value.outcome == outcome
      && a.resolution.value.rationale != "" && t.attempts[id].data.updatedAt <= a.updatedAt
  {
    assert AttemptAgrees(id, t.attempts[id], t.bindings.Keys);
  }
}
