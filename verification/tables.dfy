/** The ledger's tables as a value, and each transaction as a function on them.
    A transaction either returns its result with the rows it committed, or an
    error with the rows untouched. */
module Tables {
  import opened Domain

  datatype CredentialRow = CredentialRow(owner: QuotaOwnerId, product: Product, generation: nat)

  /** Indexed columns beside the encoded binding. */
  datatype BindingRow = BindingRow(
    principal: PrincipalId, session: ClientSessionId, account: AccountId, data: Binding)

  /** `state` duplicates `data.state`: counting and filtering use the column, transitions use the record. */
  datatype AttemptRow = AttemptRow(
    binding: BindingId, owner: QuotaOwnerId, operation: Option<OperationId>, state: AttemptState, data: Attempt)

  datatype Rows = Rows(
    accounts: map<AccountId, Account>,
    policies: map<QuotaOwnerId, QuotaPolicy>,
    observations: map<QuotaOwnerId, UsageObservation>,
    credentials: map<CredentialId, CredentialRow>,
    watermarks: map<CredentialId, nat>,
    bindings: map<BindingId, BindingRow>,
    attempts: map<AttemptId, AttemptRow>)

  const EMPTY := Rows(map[], map[], map[], map[], map[], map[], map[])

  datatype Outcome<+T> = Outcome(rows: Rows, result: Result<T>)

  function Refuse<T>(t: Rows, e: Error): Outcome<T> { Outcome(t, Err(e)) }
  function RefuseCode<T>(t: Rows, code: ErrorCode): Outcome<T> { Refuse(t, NewError(code)) }

  // ---------------------------------------------------------------- credentials

  /** The largest generation either table records for a credential. */
  function Floor(t: Rows, c: CredentialId): Option<nat> {
    if c in t.watermarks && c in t.credentials then
      Some(Max(t.watermarks[c], t.credentials[c].generation))
    else if c in t.watermarks then Some(t.watermarks[c])
    else if c in t.credentials then Some(t.credentials[c].generation)
    else None
  }

  function AdvanceCredential(t: Rows, reference: CredentialRef): Outcome<()> {
    var floor := Floor(t, reference.id);
    if floor.Some? && reference.generation < floor.value then RefuseCode(t, InvalidInput)
    else Outcome(t.(watermarks := t.watermarks[reference.id := reference.generation]), Ok(()))
  }

  // ------------------------------------------------------------ administration

  function PutAccount(t: Rows, account: Account): Outcome<()> {
    if account.models == {} || exists model :: model in account.models && Blank(model) then
      RefuseCode(t, InvalidInput)
    else if account.id in t.accounts
         && (t.accounts[account.id].product != account.product
             || t.accounts[account.id].quotaOwner != account.quotaOwner) then
      RefuseCode(t, InvalidInput)
    else
      var c := account.credential;
      if c.id in t.credentials
         && (t.credentials[c.id].owner != account.quotaOwner
             || t.credentials[c.id].product != account.product
             || c.generation < t.credentials[c.id].generation) then
        RefuseCode(t, InvalidInput)
      else
        var advanced := AdvanceCredential(t, c);
        if advanced.result.Err? then Refuse(t, advanced.result.error)
        else
          var row := if c.id in t.credentials then t.credentials[c.id].(generation := c.generation)
                     else CredentialRow(account.quotaOwner, account.product, c.generation);
          Outcome(advanced.rows.(credentials := t.credentials[c.id := row],
                                 accounts := t.accounts[account.id := account]), Ok(()))
  }

  function PutPolicy(t: Rows, policy: QuotaPolicy): Outcome<()> {
    if policy.maxConcurrency == 0 then RefuseCode(t, InvalidInput)
    else Outcome(t.(policies := t.policies[policy.owner := policy]), Ok(()))
  }

  function Observe(t: Rows, o: UsageObservation): Outcome<()> {
    if o.observedAt < 0 || o.validUntil <= o.observedAt then RefuseCode(t, InvalidInput)
    else if o.owner in t.observations && o == t.observations[o.owner] then Outcome(t, Ok(()))
    else if o.owner in t.observations && o.observedAt <= t.observations[o.owner].observedAt then
      RefuseCode(t, InvalidInput)
    else Outcome(t.(observations := t.observations[o.owner := o]), Ok(()))
  }

  function SetAccountEnabled(t: Rows, id: AccountId, enabled: bool): Outcome<()> {
    if id !in t.accounts then RefuseCode(t, NotFound)
    else Outcome(t.(accounts := t.accounts[id := t.accounts[id].(enabled := enabled)]), Ok(()))
  }

  function Fenced(account: Account, enrolled: set<AccountId>): Account {
    if account.enabled && account.id !in enrolled then account.(enabled := false) else account
  }

  function DisableUnenrolled(t: Rows, enrolled: set<AccountId>): Outcome<()> {
    Outcome(t.(accounts := map id | id in t.accounts :: Fenced(t.accounts[id], enrolled)), Ok(()))
  }

  // ----------------------------------------------------------------- admission

  /** The attempts charged to an owner, as the indexed columns count them. */
  function Charged(t: Rows, owner: QuotaOwnerId): set<AttemptId> {
    set id | id in t.attempts && t.attempts[id].owner == owner && t.attempts[id].state.HoldsCapacity()
  }

  function Pressure(t: Rows, owner: QuotaOwnerId): nat { |Charged(t, owner)| }

  predicate MatchesIntent(account: Account, intent: CreateBinding) {
    && account.product == intent.product
    && intent.pool in account.pools
    && (intent.model.Some? ==> account.Serves(intent.model.value))
  }

  predicate KnownAvailable(t: Rows, owner: QuotaOwnerId, now: Timestamp) {
    && owner in t.observations
    && t.observations[owner].status == Available
    && t.observations[owner].observedAt <= now < t.observations[owner].validUntil
  }

  /** Why the account cannot take one more request now, or None when it can. */
  function Ineligible(t: Rows, account: Account, intent: CreateBinding, now: Timestamp): Option<ErrorCode> {
    var owner := account.quotaOwner;
    if !account.enabled then Some(NoEligibleAccount)
    else if !MatchesIntent(account, intent) then Some(NoEligibleAccount)
    else if owner !in t.policies then Some(ErrorCode.CapacityUnknown)
    else if owner in t.observations && t.observations[owner].status == Exhausted then Some(SessionQuotaExhausted)
    else if owner in t.observations && t.observations[owner].status == CapacityStatus.ReauthenticationRequired then
      Some(ErrorCode.ReauthenticationRequired)
    else if !KnownAvailable(t, owner, now) && t.policies[owner].unknown == Reject then
      Some(ErrorCode.CapacityUnknown)
    else if Pressure(t, owner) >= t.policies[owner].maxConcurrency then Some(SessionConcurrencyExhausted)
    else None
  }

  predicate Authorized(t: Rows, p: Principal, id: BindingId) {
    && id in t.bindings
    && t.bindings[id].principal == p.id
    && t.bindings[id].data.intent.pool in p.pools
  }

  predicate Visible(t: Rows, p: Principal, id: BindingId) {
    if p.admin then id in t.bindings && t.bindings[id].data.intent.pool in p.pools
    else Authorized(t, p, id)
  }

  predicate PinConflict(intent: CreateBinding, model: string, effort: Option<string>) {
    || (intent.model.Some? && intent.model.value != model)
    || (intent.effort.Some? && intent.effort != effort)
  }

  function SameOperation(t: Rows, binding: BindingId, operation: Option<OperationId>): set<AttemptId> {
    set id | id in t.attempts && operation.Some? && t.attempts[id].binding == binding
             && t.attempts[id].operation == operation
  }

  function UncertainOn(t: Rows, binding: BindingId): set<AttemptId> {
    set id | id in t.attempts && t.attempts[id].binding == binding && t.attempts[id].state.Uncertain?
  }

  /** Running work that shares the binding with a request carrying this operation. */
  function Blocking(t: Rows, binding: BindingId, operation: Option<OperationId>): set<AttemptId> {
    set id | id in t.attempts && t.attempts[id].binding == binding && t.attempts[id].state.Active()
             && (operation.None? || t.attempts[id].operation.None?)
  }

  ghost function Least(s: set<nat>): (m: nat)
    requires s != {}
    ensures m in s && forall x :: x in s ==> m <= x
  {
    LeastExists(s);
    var m :| m in s && forall x :: x in s ==> m <= x;
    m
  }

  lemma LeastExists(s: set<nat>)
    requires s != {}
    ensures exists m :: m in s && forall x :: x in s ==> m <= x
  {
    var y :| y in s;
    if s != {y} {
      LeastExists(s - {y});
      var m :| m in s - {y} && forall x :: x in s - {y} ==> m <= x;
      var least := if m < y then m else y;
      assert forall x :: x in s ==> x == y || x in s - {y};
      assert least in s && forall x :: x in s ==> least <= x;
    }
  }

  function FreshAttempt(id: AttemptId, adm: Admission, account: Account, now: Timestamp): Attempt {
    Attempt(id, adm.binding, account.quotaOwner, adm.operation, adm.fingerprint, account.credential,
            AttemptState.Reserved, now, now, None)
  }

  function InsertAttempt(t: Rows, a: Attempt): Rows {
    t.(attempts := t.attempts[a.id := AttemptRow(a.binding, a.quotaOwner, a.operation, a.state, a)])
  }

  /** The fence a request meets before its account is considered. */
  ghost function AdmissionFence(t: Rows, p: Principal, adm: Admission, now: Timestamp): Option<Error> {
    if now < 0 || adm.fingerprint == "" || ByteLength(adm.fingerprint) > 128 then Some(NewError(InvalidInput))
    else if !Authorized(t, p, adm.binding) then Some(NewError(NotFound))
    else
      var binding := t.bindings[adm.binding].data;
      if binding.closedAt.Some? then Some(NewError(Closed).Bound(binding.id))
      else if now < binding.createdAt then Some(NewError(InvalidInput).Bound(binding.id))
      else if PinConflict(binding.intent, adm.model, adm.effort) then
        Some(NewError(IntentConflict).Bound(binding.id))
      else if SameOperation(t, binding.id, adm.operation) != {} then
        var previous := t.attempts[Least(SameOperation(t, binding.id, adm.operation))].data;
        var code := if previous.fingerprint == adm.fingerprint then OperationAlreadyExists else OperationConflict;
        Some(NewError(code).Bound(binding.id).WithAttempt(previous.id).(requestState := previous.state.Certainty()))
      else if UncertainOn(t, binding.id) != {} then
        Some(NewError(SessionUncertain).Bound(binding.id)
             .WithAttempt(t.attempts[Least(UncertainOn(t, binding.id))].data.id))
      else if Blocking(t, binding.id, adm.operation) != {} then
        Some(NewError(SessionConcurrencyExhausted).Bound(binding.id)
             .WithAttempt(t.attempts[Least(Blocking(t, binding.id, adm.operation))].data.id))
      else None
  }

  /** `uuid` is the random identifier drawn for the row; a collision violates the primary key. */
  ghost function Admit(t: Rows, p: Principal, adm: Admission, now: Timestamp, uuid: AttemptId): Outcome<PreparedAttempt> {
    var fence := AdmissionFence(t, p, adm, now);
    if fence.Some? then Refuse(t, fence.value)
    else
      var binding := t.bindings[adm.binding].data;
      if binding.account !in t.accounts then RefuseCode(t, StorageUnavailable)
      else
        var account := t.accounts[binding.account];
        if !account.Serves(adm.model) then Refuse(t, NewError(NoEligibleAccount).Bound(binding.id))
        else
          var refusal := Ineligible(t, account, binding.intent, now);
          if refusal.Some? then Refuse(t, NewError(refusal.value).Bound(binding.id))
          else if Floor(t, account.credential.id) != Some(account.credential.generation) then
            Refuse(t, NewError(ErrorCode.CredentialUnavailable).Bound(binding.id))
          else if uuid in t.attempts then RefuseCode(t, StorageUnavailable)
          else
            var attempt := FreshAttempt(uuid, adm.(binding := binding.id), account, now);
            Outcome(InsertAttempt(t, attempt), Ok(PreparedAttempt(attempt, binding, account)))
  }

  // ---------------------------------------------------------------- transitions

  function SaveAttempt(t: Rows, a: Attempt): Rows {
    if a.id in t.attempts then t.(attempts := t.attempts[a.id := t.attempts[a.id].(state := a.state, data := a)])
    else t
  }

  function Advance(t: Rows, id: AttemptId, expected: AttemptState, next: AttemptState, now: Timestamp): Outcome<()> {
    if now < 0 then RefuseCode(t, InvalidInput)
    else if id !in t.attempts then RefuseCode(t, NotFound)
    else
      var a := t.attempts[id].data;
      if a.state != expected || now < a.updatedAt then Refuse(t, NewError(InvalidTransition).Bound(a.binding))
      else Outcome(SaveAttempt(t, a.(state := next, updatedAt := now)), Ok(()))
  }

  function MarkDispatching(t: Rows, id: AttemptId, now: Timestamp): Outcome<()> {
    Advance(t, id, AttemptState.Reserved, AttemptState.Dispatching, now)
  }

  function MarkStreaming(t: Rows, id: AttemptId, now: Timestamp): Outcome<()> {
    Advance(t, id, AttemptState.Dispatching, AttemptState.Streaming, now)
  }

  predicate SettleAllowed(from: AttemptState, next: AttemptState) {
    match from
    case Reserved => next == AttemptState.NotDispatched
    case Dispatching => true
    case Streaming | Uncertain => next != AttemptState.NotDispatched
    case _ => false
  }

  function Settle(t: Rows, id: AttemptId, outcome: Settlement, now: Timestamp): Outcome<Attempt> {
    if now < 0 then RefuseCode(t, InvalidInput)
    else if id !in t.attempts then RefuseCode(t, NotFound)
    else
      var a := t.attempts[id].data;
      var next := outcome.State();
      if a.state == next then Outcome(t, Ok(a))
      else if !SettleAllowed(a.state, next) || now < a.updatedAt then
        Refuse(t, NewError(InvalidTransition).Bound(a.binding))
      else
        var settled := a.(state := next, updatedAt := now);
        Outcome(SaveAttempt(t, settled), Ok(settled))
  }

  function TrimStart(s: string): string {
    if s != "" && IsSpace(s[0]) then TrimStart(s[1..]) else s
  }

  function TrimEnd(s: string): string {
    if s != "" && IsSpace(s[|s| - 1]) then TrimEnd(s[..|s| - 1]) else s
  }

  function Trim(s: string): string { TrimEnd(TrimStart(s)) }

  function ResolveAttempt(t: Rows, p: Principal, id: AttemptId, outcome: Settlement, rationale: string, now: Timestamp)
    : Outcome<Attempt>
  {
    if now < 0 then RefuseCode(t, InvalidInput)
    else if !p.admin then RefuseCode(t, Forbidden)
    else if !outcome.Evidence() then RefuseCode(t, InvalidInput)
    else if Trim(rationale) == "" || ByteLength(Trim(rationale)) > 512 then RefuseCode(t, InvalidInput)
    else if id !in t.attempts || !Visible(t, p, t.attempts[id].data.binding) then RefuseCode(t, NotFound)
    else
      var a := t.attempts[id].data;
      if !a.state.Uncertain? then
        Refuse(t, NewError(InvalidTransition).Bound(a.binding).WithAttempt(a.id))
      else
        var resolved := a.(state := outcome.State(), updatedAt := Max(now, a.updatedAt),
                           resolution := Some(AttemptResolution(p.id, outcome, Trim(rationale), now)));
        Outcome(SaveAttempt(t, resolved), Ok(resolved))
  }

  function RecoveredState(s: AttemptState): AttemptState {
    if s.Reserved? then AttemptState.NotDispatched else AttemptState.Uncertain
  }

  function RecoveredRow(row: AttemptRow, now: Timestamp): AttemptRow {
    if row.state.Active() then
      var a := row.data.(state := RecoveredState(row.data.state), updatedAt := Max(now, row.data.updatedAt));
      row.(state := a.state, data := a)
    else row
  }

  function Recover(t: Rows, now: Timestamp): Outcome<()> {
    if now < 0 then RefuseCode(t, InvalidInput)
    else Outcome(t.(attempts := map id | id in t.attempts :: RecoveredRow(t.attempts[id], now)), Ok(()))
  }

  // ------------------------------------------------------------------- bindings

  function SessionBindings(t: Rows, p: PrincipalId, session: ClientSessionId): set<BindingId> {
    set id | id in t.bindings && t.bindings[id].principal == p && t.bindings[id].session == session
  }

  /** Accounts the intent lets the ledger try; a pin leaves only the pinned one. */
  function Candidates(t: Rows, intent: CreateBinding): set<AccountId> {
    set id | id in t.accounts && (intent.account.Some? ==> intent.account.value == t.accounts[id].id)
  }

  function EligibleIds(t: Rows, intent: CreateBinding, now: Timestamp): set<AccountId> {
    set id | id in Candidates(t, intent) && Ineligible(t, t.accounts[id], intent, now).None?
  }

  ghost function Ascending(s: set<nat>): seq<nat> {
    if s == {} then [] else [Least(s)] + Ascending(s - {Least(s)})
  }

  /** One exclusion for every candidate inside the requested pool, in account order. */
  function Exclusions(t: Rows, ids: seq<AccountId>, intent: CreateBinding, now: Timestamp): seq<AccountExclusion>
    requires forall i :: 0 <= i < |ids| ==> ids[i] in t.accounts
  {
    if ids == [] then []
    else
      var account := t.accounts[ids[|ids| - 1]];
      var refusal := Ineligible(t, account, intent, now);
      Exclusions(t, ids[..|ids| - 1], intent, now) +
      (if refusal.Some? && intent.pool in account.pools then [AccountExclusion(account.id, refusal.value)] else [])
  }

  ghost predicate AllExcluded(t: Rows, ids: seq<AccountId>, intent: CreateBinding, now: Timestamp) {
    forall i :: 0 <= i < |ids| ==> ids[i] in t.accounts && Ineligible(t, t.accounts[ids[i]], intent, now).Some?
  }

  lemma ExcludeNext(t: Rows, ids: seq<AccountId>, intent: CreateBinding, now: Timestamp, i: nat)
    requires i < |ids| && ids[i] in t.accounts && AllExcluded(t, ids[..i], intent, now)
    requires Ineligible(t, t.accounts[ids[i]], intent, now).Some?
    ensures AllExcluded(t, ids[..i + 1], intent, now)
    ensures var account := t.accounts[ids[i]];
      Exclusions(t, ids[..i + 1], intent, now) == Exclusions(t, ids[..i], intent, now)
      + if intent.pool in account.pools
        then [AccountExclusion(account.id, Ineligible(t, account, intent, now).value)] else []
  {
    assert ids[..i + 1][..i] == ids[..i];
  }

  lemma NoneEligible(t: Rows, ids: seq<AccountId>, intent: CreateBinding, now: Timestamp)
    requires ids == Ascending(Candidates(t, intent)) && AllExcluded(t, ids[..|ids|], intent, now)
    ensures EligibleIds(t, intent, now) == {}
  {
    AscendingElements(Candidates(t, intent));
    assert ids[..|ids|] == ids;
  }

  /** The exclusions that concern an account matching the intent. */
  function Applicable(list: seq<AccountExclusion>): seq<AccountExclusion> {
    if list == [] then []
    else if list[0].code == NoEligibleAccount then Applicable(list[1..])
    else [list[0]] + Applicable(list[1..])
  }

  function NoEligible(intent: CreateBinding, list: seq<AccountExclusion>): Error {
    if intent.account.Some? then
      var pinned := PinnedExclusion(list, intent.account.value);
      if pinned.Some? then NewError(pinned.value).WithExclusions(list) else NewError(NoEligibleAccount)
    else if list == [] then NewError(NoEligibleAccount)
    else
      var applicable := Applicable(list);
      var code := if applicable != [] && forall i :: 0 <= i < |applicable| ==> applicable[i].code == applicable[0].code
                  then applicable[0].code else NoEligibleAccount;
      NewError(code).WithExclusions(list)
  }

  function PinnedExclusion(list: seq<AccountExclusion>, pin: AccountId): Option<ErrorCode> {
    if list == [] then None
    else if list[0].account == pin then Some(list[0].code)
    else PinnedExclusion(list[1..], pin)
  }

  lemma AscendingElements(s: set<nat>)
    ensures forall i :: 0 <= i < |Ascending(s)| ==> Ascending(s)[i] in s
    ensures forall x :: x in s ==> x in Ascending(s)
    ensures forall i, j :: 0 <= i < j < |Ascending(s)| ==> Ascending(s)[i] < Ascending(s)[j]
  {
    if s != {} {
      AscendingElements(s - {Least(s)});
    }
  }

  lemma AscendingSubset(s: set<nat>)
    ensures forall i :: 0 <= i < |Ascending(s)| ==> Ascending(s)[i] in s
  {
    AscendingElements(s);
  }

  ghost function AllExclusions(t: Rows, intent: CreateBinding, now: Timestamp): seq<AccountExclusion> {
    AscendingElements(Candidates(t, intent));
    Exclusions(t, Ascending(Candidates(t, intent)), intent, now)
  }

  /** `uuid` is the random identifier drawn for a new binding. */
  ghost function Bind(t: Rows, p: Principal, intent: CreateBinding, now: Timestamp, uuid: BindingId)
    : Outcome<Binding>
  {
    if now < 0 then RefuseCode(t, InvalidInput)
    else if intent.pool !in p.pools then RefuseCode(t, Unauthorized)
    else if (intent.model.Some? && Blank(intent.model.value)) || (intent.effort.Some? && Blank(intent.effort.value)) then
      RefuseCode(t, InvalidInput)
    else if SessionBindings(t, p.id, intent.session) != {} then
      var existing := t.bindings[Least(SessionBindings(t, p.id, intent.session))].data;
      if existing.intent.pool !in p.pools then RefuseCode(t, NotFound)
      else if existing.closedAt.Some? then Refuse(t, NewError(Closed).Bound(existing.id))
      else if existing.intent != intent then Refuse(t, NewError(IntentConflict).Bound(existing.id))
      else Outcome(t, Ok(existing))
    else if EligibleIds(t, intent, now) == {} then
      Refuse(t, NoEligible(intent, AllExclusions(t, intent, now)))
    else if uuid in t.bindings then RefuseCode(t, StorageUnavailable)
    else
      var account := t.accounts[Least(EligibleIds(t, intent, now))];
      var binding := Binding(uuid, p.id, intent, account.id, now, None);
      Outcome(t.(bindings := t.bindings[uuid := BindingRow(p.id, intent.session, account.id, binding)]), Ok(binding))
  }

  function CloseBinding(t: Rows, p: Principal, id: BindingId, now: Timestamp): Outcome<Binding> {
    if now < 0 then RefuseCode(t, InvalidInput)
    else if !Authorized(t, p, id) then RefuseCode(t, NotFound)
    else
      var binding := t.bindings[id].data;
      if now < binding.createdAt then RefuseCode(t, InvalidInput)
      else if binding.closedAt.Some? then Outcome(t, Ok(binding))
      else
        var closed := binding.(closedAt := Some(now));
        Outcome(t.(bindings := t.bindings[id := t.bindings[id].(data := closed)]), Ok(closed))
  }

  ghost function SessionBinding(t: Rows, p: Principal, session: ClientSessionId): Option<Binding> {
    if SessionBindings(t, p.id, session) == {} then None
    else
      var binding := t.bindings[Least(SessionBindings(t, p.id, session))].data;
      if binding.intent.pool in p.pools then Some(binding) else None
  }
}
