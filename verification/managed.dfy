/** Enrolled accounts kept usable: credentials accepted only while they outlive the refresh
    window, and every account sharing a failed credential kept out of service. */
module Managed {
  import opened Codex
  import opened Domain
  import opened Ledger
  import T = Tables
  import V = Verdicts

  const FRESH_MS: int := 30_000
  const RETRY_MS: int := 5_000
  const SKEW_MS: int := 300_000

  function Saturating(t: int, span: int): int {
    if t + span > I64_MAX then I64_MAX else t + span
  }

  datatype LiveAccount = LiveAccount(
    id: AccountId,
    product: Product,
    expected: Option<string>,
    quotaOwner: QuotaOwnerId,
    pool: PoolId,
    credential: CredentialId,
    models: set<string>,
    maxConcurrency: nat,
    unknown: UnknownCapacityPolicy)

  datatype CachedCredential = CachedCredential(checkedAt: Timestamp, validUntil: Timestamp, result: Result<CredentialRef>)

  /** How the awaited operations answer: `refused` are the accounts the ledger fails to disable,
      and the deadline passes once `reach` accounts of a failed credential have been visited. */
  datatype World = World(
    resolved: Result<CredentialRef>,
    loaded: Result<Secret>,
    reloaded: Result<Secret>,
    collected: Result<UsageObservation>,
    refused: set<AccountId>,
    reach: nat)

  /** The bundle a credential was judged by, and the reference it was loaded under. */
  datatype Bundle = Bundle(reference: CredentialRef, auth: Auth)

  type Inventory = map<AccountId, LiveAccount>

  /** Accounts that share a credential share its product and upstream identity. */
  ghost predicate Uniform(accounts: Inventory) {
    && (forall id :: id in accounts ==> accounts[id].id == id)
    && forall a, b :: a in accounts && b in accounts && accounts[a].credential == accounts[b].credential ==>
         accounts[a].product == accounts[b].product && accounts[a].expected == accounts[b].expected
  }

  function Aliases(accounts: Inventory, credential: CredentialId): set<AccountId> {
    set id | id in accounts && accounts[id].credential == credential
  }

  predicate IsCodex(accounts: Inventory, credential: CredentialId) {
    exists id :: id in accounts && accounts[id].credential == credential && accounts[id].product == CodexSubscription
  }

  /** The token outlives the refresh window for as long as the entry may be served. */
  predicate Lasts(c: CachedCredential, auth: Auth) {
    c.checkedAt < c.validUntil ==> Outlives(auth, c.validUntil - 1, 300_000)
  }

  predicate OutOfService(rows: map<AccountId, Account>, ids: set<AccountId>) {
    forall id :: id in ids && id in rows ==> !rows[id].enabled
  }

  function Disabled(rows: map<AccountId, Account>, ids: set<AccountId>): map<AccountId, Account> {
    map id | id in rows :: if id in ids then rows[id].(enabled := false) else rows[id]
  }

  lemma DisabledMore(rows: map<AccountId, Account>, ids: set<AccountId>, id: AccountId)
    ensures var before := Disabled(rows, ids);
      Disabled(rows, ids + {id}) == if id in before then before[id := before[id].(enabled := false)] else before
    ensures Disabled(rows, {}) == rows
  {
  }

  /** Disabling only some aliases of a failed credential fences it exactly when the others were out
      of service already. */
  lemma CancelledFence(rows: map<AccountId, Account>, aliases: set<AccountId>, done: set<AccountId>)
    ensures OutOfService(Disabled(rows, done), aliases) <==> OutOfService(rows, aliases - done)
  {
    var after := Disabled(rows, done);
    if OutOfService(after, aliases) {
      forall id | id in aliases - done && id in rows
        ensures !rows[id].enabled
      {
        assert after[id] == rows[id];
      }
    }
  }

  /** Two enabled aliases, cut off after the first: the second is still in service. */
  lemma CancelledTooEarly(rows: map<AccountId, Account>, first: AccountId, second: AccountId)
    requires first != second && second in rows && rows[second].enabled
    ensures !OutOfService(Disabled(rows, {first}), {first, second})
  {
    CancelledFence(rows, {first, second}, {first});
    assert second in {first, second} - {first};
  }

  /** Freshness at the end of a span is freshness throughout it, saturation included. */
  lemma FreshThroughout(auth: Auth, now: Timestamp, t: Timestamp)
    requires 0 <= now <= t < Saturating(now, FRESH_MS)
    requires NeedsRefresh(auth, Saturating(now, FRESH_MS), SKEW_MS) == Ok(false)
    ensures NeedsRefresh(auth, t, SKEW_MS) == Ok(false)
    ensures Outlives(auth, t, 300_000)
  {
    FreshMeansUnexpired(auth, t, SKEW_MS);
    FreshMeansUnexpired(auth, Saturating(now, FRESH_MS), SKEW_MS);
  }

  /** If the credential failed, no account sharing it is in service. */
  ghost predicate IsFenced(accounts: Inventory, credentials: map<CredentialId, CachedCredential>,
      rows: map<AccountId, Account>, credential: CredentialId)
  {
    credential in credentials && credentials[credential].result.Err? ==> OutOfService(rows, Aliases(accounts, credential))
  }

  ghost predicate EnrolledAreIn(accounts: Inventory, enrolled: map<AccountId, CredentialRef>, rows: map<AccountId, Account>) {
    forall id :: id in enrolled ==>
      id in accounts && id in rows && rows[id].enabled && rows[id].credential == enrolled[id]
  }

  /** Putting one account into service under a credential that has not failed. */
  lemma PutKeeps(accounts: Inventory, credentials: map<CredentialId, CachedCredential>, enrolled: map<AccountId, CredentialRef>,
      rows: map<AccountId, Account>, account: Account)
    requires EnrolledAreIn(accounts, enrolled, rows)
    requires account.id in accounts && account.enabled
    requires var c := accounts[account.id].credential; c in credentials && credentials[c].result.Ok?
    ensures forall c :: IsFenced(accounts, credentials, rows, c) ==>
      IsFenced(accounts, credentials, rows[account.id := account], c)
    ensures EnrolledAreIn(accounts, enrolled[account.id := account.credential], rows[account.id := account])
  {
  }

  /** Taking accounts out of service unfences nothing. */
  lemma DisablingKeeps(accounts: Inventory, credentials: map<CredentialId, CachedCredential>,
      rows: map<AccountId, Account>, ids: set<AccountId>, c: CredentialId)
    requires IsFenced(accounts, credentials, rows, c)
    ensures IsFenced(accounts, credentials, Disabled(rows, ids), c)
  {
  }

  lemma Visited(reached: set<AccountId>, todo: set<AccountId>, refused: set<AccountId>, id: AccountId,
      enrolled: map<AccountId, CredentialRef>)
    requires id in todo && reached !! todo
    ensures reached + {id} + (todo - {id}) == reached + todo && reached + {id} !! todo - {id}
    ensures |reached + {id}| == |reached| + 1
    ensures enrolled - reached - {id} == enrolled - (reached + {id})
    ensures reached + {id} - refused == if id in refused then reached - refused else reached - refused + {id}
    ensures reached + {id} !! refused <==> reached !! refused && id !in refused
  {
  }

  lemma FewReached(accounts: Inventory, credential: CredentialId, reached: set<AccountId>)
    requires reached <= Aliases(accounts, credential)
    ensures |reached| == |Aliases(accounts, credential)| ==> reached == Aliases(accounts, credential)
    ensures |reached| <= |Aliases(accounts, credential)|
  {
    var rest := Aliases(accounts, credential) - reached;
    assert Aliases(accounts, credential) == reached + rest;
  }

  lemma DisabledStay(accounts: Inventory, enrolled: map<AccountId, CredentialRef>, rows: map<AccountId, Account>,
      reached: set<AccountId>, refused: set<AccountId>)
    requires EnrolledAreIn(accounts, enrolled, rows)
    ensures EnrolledAreIn(accounts, enrolled - reached, Disabled(rows, reached - refused))
  {
  }

  /** The enrolled account, under the credential, in service. */
  function AccountOf(setup: LiveAccount, reference: CredentialRef): Account {
    Account(setup.id, setup.product, setup.quotaOwner, {setup.pool}, reference, setup.models, true)
  }

  /** The enrollment's own limits and account are on record. */
  predicate Placed(setup: LiveAccount, reference: CredentialRef, policies: map<QuotaOwnerId, QuotaPolicy>,
      accounts: map<AccountId, Account>)
  {
    && setup.quotaOwner in policies
    && policies[setup.quotaOwner] == QuotaPolicy(setup.quotaOwner, setup.maxConcurrency, setup.unknown)
    && setup.id in accounts && accounts[setup.id] == AccountOf(setup, reference)
  }

  /** What was resolved can be loaded and, where it is a Codex bundle, is the enrolled account's and
      outlives the refresh window. */
  predicate Acceptable(setup: LiveAccount, now: Timestamp, w: World) {
    && w.resolved.Ok? && w.loaded.Ok?
    && (setup.product == CodexSubscription ==>
          && w.loaded.value.auth.Some? && setup.expected == Some(w.loaded.value.auth.value.account)
          && Outlives(w.loaded.value.auth.value, now, 300_000))
  }

  /** Half a minute, unless the bundle would not outlive its window then. */
  function CachedUntil(setup: LiveAccount, now: Timestamp, w: World): Timestamp
    requires Acceptable(setup, now, w)
  {
    if setup.product == CodexSubscription && !Outlives(w.loaded.value.auth.value, Saturating(now, 30_000), 300_000) then now
    else Saturating(now, 30_000)
  }

  class ManagedInventory {
    const accounts: Inventory
    const ledger: SqliteLedger
    var credentials: map<CredentialId, CachedCredential>
    var enrolled: map<AccountId, CredentialRef>
    var usageRetry: map<QuotaOwnerId, Timestamp>
    ghost var accepted: map<CredentialId, Bundle>    // what each cached Codex success was judged by

    ghost predicate Fresh()
      reads this
    {
      forall c :: c in credentials && credentials[c].result.Ok? && IsCodex(accounts, c) ==>
        && c in accepted && credentials[c].result == Ok(accepted[c].reference)
        && Lasts(credentials[c], accepted[c].auth)
    }

    ghost predicate FencedAt(credential: CredentialId)
      reads this, ledger
    {
      IsFenced(accounts, credentials, ledger.accounts, credential)
    }

    /** A failed credential has no account in service. */
    ghost predicate Fenced()
      reads this, ledger
    {
      forall c :: c in credentials ==> FencedAt(c)
    }

    /** What is taken as enrolled is in service with that credential. */
    ghost predicate Enrolled()
      reads this, ledger
    {
      EnrolledAreIn(accounts, enrolled, ledger.accounts)
    }

    /** What holds whatever the ledger refuses and wherever the deadline falls; the fence does not. */
    ghost predicate Valid()
      reads this, ledger
    {
      Uniform(accounts) && Fresh() && Enrolled()
    }

    /** Only this credential moves in what is remembered, and no other loses its fence. */
    twostate predicate Touches(credential: CredentialId)
      reads this, ledger
    {
      && credentials - {credential} == old(credentials) - {credential}
      && accepted - {credential} == old(accepted) - {credential}
      && forall c :: c != credential && old(FencedAt(c)) ==> FencedAt(c)
    }

    /** The ledger answers, and the deadline leaves time to reach every account sharing the credential. */
    ghost predicate Answered(w: World, credential: CredentialId) {
      w.refused == {} && |Aliases(accounts, credential)| <= w.reach
    }

    /** An entry for this credential may still be served. */
    ghost predicate Answering(credential: CredentialId, now: Timestamp)
      reads this`credentials
    {
      credential in credentials && credentials[credential].checkedAt <= now < credentials[credential].validUntil
    }

    /** The Codex credential is the accepted one, judged either by what was loaded just now or by
        what an entry still fresh was judged by, and outlives the refresh window. */
    twostate predicate Accepted(setup: LiveAccount, now: Timestamp, w: World, reference: CredentialRef)
      reads this
    {
      && setup.credential in accepted && accepted[setup.credential].reference == reference
      && var auth := accepted[setup.credential].auth;
      && Outlives(auth, now, 300_000)
      && (|| (w.resolved == Ok(reference) && w.loaded.Ok? && w.loaded.value.auth == Some(auth)
              && setup.expected == Some(auth.account))
          || (setup.credential in credentials && setup.credential in old(credentials)
              && credentials[setup.credential] == old(credentials)[setup.credential] && accepted == old(accepted)))
    }

    constructor (accounts: Inventory, ledger: SqliteLedger)
      requires Uniform(accounts)
      ensures Valid() && Fenced() && this.accounts == accounts && this.ledger == ledger
    {
      this.accounts, this.ledger := accounts, ledger;
      credentials, enrolled, usageRetry, accepted := map[], map[], map[], map[];
    }

    /** Every account sharing the credential that the deadline leaves time to reach leaves service,
        enrolled in the ledger or not, unless the ledger refuses. */
    method DisableCredential(credential: CredentialId, refused: set<AccountId>, reach: nat)
      returns (r: Result<()>, ghost reached: set<AccountId>)
      modifies this`enrolled, ledger`accounts
      ensures reached <= Aliases(accounts, credential)
      ensures reached == Aliases(accounts, credential) || |reached| == reach
      ensures enrolled == old(enrolled) - reached
      ensures ledger.accounts == Disabled(old(ledger.accounts), reached - refused)
      ensures r.Ok? <==> reached == Aliases(accounts, credential) && reached !! refused
      ensures var aliases := Aliases(accounts, credential);
        OutOfService(ledger.accounts, aliases) <==> OutOfService(old(ledger.accounts), aliases - (reached - refused))
    {
      hide *;
      DisabledMore(ledger.accounts, {}, 0);
      var todo := Aliases(accounts, credential);
      var visits := 0;
      ghost var gone: set<AccountId> := {};
      reached := {};
      r := Ok(());
      while todo != {} && visits < reach
        invariant reached + todo == Aliases(accounts, credential) && reached !! todo
        invariant visits == |reached| <= reach
        invariant gone == reached - refused && (r.Ok? <==> reached !! refused)
        invariant enrolled == old(enrolled) - reached
        invariant ledger.accounts == Disabled(old(ledger.accounts), gone)
        decreases |todo|
      {
        var id :| id in todo;
        Visited(reached, todo, refused, id, old(enrolled));
        todo := todo - {id};
        reached := reached + {id};
        visits := visits + 1;
        enrolled := enrolled - {id};
        if id in refused {
          r := Err(NewError(StorageUnavailable));
        } else {
          Leave(id, old(ledger.accounts), gone);
          gone := gone + {id};
        }
      }
      CancelledFence(old(ledger.accounts), Aliases(accounts, credential), gone);
      if todo != {} { r := Err(NewError(ErrorCode.CredentialUnavailable)); }
    }

    /** One account leaves service; a row that is not there is no failure. */
    method Leave(id: AccountId, ghost rows: map<AccountId, Account>, ghost gone: set<AccountId>)
      requires ledger.accounts == Disabled(rows, gone)
      modifies ledger`accounts
      ensures ledger.accounts == Disabled(rows, gone + {id})
    {
      hide Disabled;
      DisabledMore(rows, gone, id);
      var _ := ledger.SetAccountEnabled(id, false);
    }

    /** Caching a failure and taking its accounts out of service keeps everything said of the rest. */
    method Fail(credential: CredentialId, now: Timestamp, e: Error, w: World) returns (r: Error, ghost reached: set<AccountId>)
      requires Valid()
      modifies this`credentials, this`enrolled, ledger`accounts
      ensures Valid() && Touches(credential)
      ensures credentials == old(credentials)[credential := CachedCredential(now, Saturating(now, 5_000), Err(e))]
      ensures reached <= Aliases(accounts, credential) && (reached == Aliases(accounts, credential) || |reached| == w.reach)
      ensures ledger.accounts == Disabled(old(ledger.accounts), reached - w.refused)
      ensures FencedAt(credential) <==>
        OutOfService(old(ledger.accounts), Aliases(accounts, credential) - (reached - w.refused))
      ensures Answered(w, credential) ==> FencedAt(credential) && r == e
    {
      hide Aliases, Lasts, Disabled;
      credentials := credentials[credential := CachedCredential(now, Saturating(now, RETRY_MS), Err(e))];
      var out;
      out, reached := DisableCredential(credential, w.refused, w.reach);
      FewReached(accounts, credential, reached);
      r := if out.Err? then out.error else e;
      DisabledStay(accounts, old(enrolled), old(ledger.accounts), reached, w.refused);
      forall c | c != credential && old(FencedAt(c))
        ensures FencedAt(c)
      {
        DisablingKeeps(accounts, credentials, old(ledger.accounts), reached - w.refused, c);
      }
    }

    /** A credential accepted at a moment, cached or not, outlives that moment's refresh window;
        a refused one has no account in service, if the ledger and the deadline let it leave. */
    method ResolveCredential(setup: LiveAccount, now: Timestamp, w: World)
      returns (r: Result<CredentialRef>, ghost reached: set<AccountId>)
      requires Valid() && 0 <= now && setup.id in accounts && accounts[setup.id] == setup
      modifies this`credentials, this`enrolled, this`accepted, ledger`accounts
      ensures Valid() && Touches(setup.credential)
      ensures r.Ok? && setup.product == CodexSubscription ==> Accepted(setup, now, w, r.value)
      ensures setup.credential in credentials && (r.Ok? ==> credentials[setup.credential].result == r)
      ensures r.Err? ==> credentials[setup.credential].result.Err?
      ensures r.Ok? ==> enrolled == old(enrolled) && ledger.accounts == old(ledger.accounts)
      ensures ledger.accounts == Disabled(old(ledger.accounts), reached - w.refused)
      ensures reached <= Aliases(accounts, setup.credential)
      ensures r.Err? ==>
        (FencedAt(setup.credential) <==>
          OutOfService(old(ledger.accounts), Aliases(accounts, setup.credential) - (reached - w.refused)))
      ensures Answered(w, setup.credential) && old(FencedAt(setup.credential)) ==> FencedAt(setup.credential)
      // An entry still fresh answers, whatever it says; otherwise what was resolved and loaded decides.
      ensures old(Answering(setup.credential, now)) ==>
        r == old(credentials[setup.credential]).result && credentials == old(credentials) && reached == {}
      ensures !old(Answering(setup.credential, now)) ==>
        && (r.Ok? <==> Acceptable(setup, now, w)) && (r.Ok? ==> r == w.resolved)
        && credentials[setup.credential].checkedAt == now
        && credentials[setup.credential].validUntil ==
            if r.Ok? then CachedUntil(setup, now, w) else Saturating(now, 5_000)
    {
      var id := setup.credential;
      reached := {};
      assert reached - w.refused == {};
      DisabledMore(ledger.accounts, {}, setup.id);
      if id in credentials {
        var cached := credentials[id];
        if cached.checkedAt <= now < cached.validUntil {
          if cached.result.Ok? && setup.product == CodexSubscription {
            assert IsCodex(accounts, id);
            FreshMeansUnexpired(accepted[id].auth, now, SKEW_MS);
          }
          r := cached.result;
          return;
        }
      }
      var validated := Validate(setup, now, w);
      if validated.Err? {
        var e;
        e, reached := Fail(id, now, validated.error, w);
        r := Err(e);
        return;
      }
      var (reference, until, auth) := validated.value;
      credentials := credentials[id := CachedCredential(now, until, Ok(reference))];
      if auth.Some? {
        accepted := accepted[id := Bundle(reference, auth.value)];
        FreshMeansUnexpired(auth.value, now, SKEW_MS);
      }
      assert IsCodex(accounts, id) ==> setup.product == CodexSubscription;
      r := Ok(reference);
    }

    /** The credential as resolved and loaded now, how long it may be cached, and its bundle. */
    method Validate(setup: LiveAccount, now: Timestamp, w: World) returns (r: Result<(CredentialRef, Timestamp, Option<Auth>)>)
      requires 0 <= now
      ensures r.Ok? ==> w.resolved == Ok(r.value.0)
      ensures r.Ok? && setup.product == CodexSubscription ==>
        r.value.2.Some? && w.loaded.Ok? && w.loaded.value.auth == r.value.2
      ensures r.Ok? && setup.product == CodexSubscription ==> (
        var auth := r.value.2.value;
        && Outlives(auth, now, 300_000) && setup.expected == Some(auth.account)
        && Lasts(CachedCredential(now, r.value.1, Ok(r.value.0)), auth))
      ensures (r.Ok? <==> Acceptable(setup, now, w)) && (r.Ok? ==> r.value.1 == CachedUntil(setup, now, w))
      ensures r.Err? && w.resolved.Ok? && w.loaded.Ok? ==>
        r.error == NewError(if w.loaded.value.auth.None? then ErrorCode.CredentialUnavailable else ErrorCode.ReauthenticationRequired)
    {
      if w.resolved.Err? { return Err(w.resolved.error); }
      var reference := w.resolved.value;
      if w.loaded.Err? { return Err(w.loaded.error); }
      if setup.product != CodexSubscription {
        return Ok((reference, Saturating(now, FRESH_MS), None));
      }
      var parsed := w.loaded.value.auth;
      if parsed.None? { return Err(NewError(ErrorCode.CredentialUnavailable)); }
      var auth := parsed.value;
      if setup.expected != Some(auth.account) { return Err(NewError(ErrorCode.ReauthenticationRequired)); }
      FreshMeansUnexpired(auth, now, SKEW_MS);
      FreshMeansUnexpired(auth, Saturating(now, FRESH_MS), SKEW_MS);
      // A moment that is not negative can always be judged by.
      if NeedsRefresh(auth, now, SKEW_MS) != Ok(false) { return Err(NewError(ErrorCode.ReauthenticationRequired)); }
      if NeedsRefresh(auth, Saturating(now, FRESH_MS), SKEW_MS) != Ok(false) { return Ok((reference, now, Some(auth))); }
      r := Ok((reference, Saturating(now, FRESH_MS), Some(auth)));
    }

    /** Evidence is stored only if it is newer than, or the same as, what is on record. */
    method SaveObservation(o: UsageObservation, previous: Option<UsageObservation>) returns (r: Result<()>)
      modifies ledger`observations
      ensures previous.Some? && previous.value.observedAt >= o.observedAt && previous.value != o ==>
        r.Err? && ledger.observations == old(ledger.observations)
      ensures r.Ok? <==>
        && 0 <= o.observedAt < o.validUntil && Advances(previous, o) && Advances(Known(old(ledger.observations), o.owner), o)
      ensures r.Ok? ==> ledger.observations == old(ledger.observations)[o.owner := o]
      ensures r.Err? ==> ledger.observations == old(ledger.observations)
    {
      if previous.Some? && previous.value.observedAt >= o.observedAt && previous.value != o {
        return Err(NewError(ErrorCode.CapacityUnknown));
      }
      V.ObserveMeans(ledger.Rows(), o);
      r := ledger.Observe(o);
    }

    /** The account is not known to be in service with this credential. */
    ghost predicate Places(setup: LiveAccount, reference: CredentialRef)
      reads this`enrolled
    {
      setup.id in enrolled ==> enrolled[setup.id] != reference
    }

    /** The account takes the accepted credential in the ledger, once. */
    method Enroll(setup: LiveAccount, reference: CredentialRef) returns (r: Result<Account>)
      requires Valid() && setup.id in accounts && accounts[setup.id] == setup
      requires setup.credential in credentials && credentials[setup.credential].result.Ok?
      modifies this`enrolled, ledger
      ensures Valid() && credentials == old(credentials) && accepted == old(accepted)
      ensures ledger.observations == old(ledger.observations)
      ensures forall c :: old(FencedAt(c)) ==> FencedAt(c)
      ensures r.Ok? ==> setup.id in ledger.accounts && ledger.accounts[setup.id].enabled
      ensures r.Ok? ==> ledger.accounts[setup.id].credential == reference
      ensures old(Places(setup, reference)) ==>
        && (r.Ok? <==> setup.maxConcurrency > 0 && V.Storable(old(ledger.Rows()), AccountOf(setup, reference)))
        && (r.Ok? ==> Placed(setup, reference, ledger.policies, ledger.accounts))
      ensures !old(Places(setup, reference)) ==> r.Ok? && ledger.Rows() == old(ledger.Rows())
    {
      hide T.PutPolicy, T.PutAccount, IsCodex, Lasts, IsFenced, Uniform, V.Storable;
      var account := Account(setup.id, setup.product, setup.quotaOwner, {setup.pool}, reference, setup.models, true);
      if setup.id !in enrolled || enrolled[setup.id] != reference {
        var offered := QuotaPolicy(setup.quotaOwner, setup.maxConcurrency, setup.unknown);
        V.PolicyMeans(ledger.Rows(), offered);
        SameStorable(ledger.Rows(), offered, account);
        PolicyTakes(ledger.Rows(), offered);
        var policy := ledger.PutQuotaPolicy(offered);
        if policy.Err? { return Err(policy.error); }
        ghost var before := ledger.Rows();
        V.PutAccountMeans(before, account);
        PutKeeps(accounts, credentials, enrolled, before.accounts, account);
        var put := ledger.PutAccount(account);
        PutTakes(before, account);
        if put.Err? { return Err(put.error); }
        enrolled := enrolled[setup.id := reference];
      }
      r := Ok(account);
    }

    /** Evidence about the owner is to be collected again. */
    ghost predicate Due(owner: QuotaOwnerId, now: Timestamp)
      reads this`usageRetry, ledger`observations
    {
      && (owner in usageRetry ==> usageRetry[owner] <= now)
      && (owner in ledger.observations ==>
            var o := ledger.observations[owner];
            now < o.observedAt || o.validUntil <= now || Saturating(o.observedAt, 30_000) <= now)
    }

    /** One account brought up to date. When it succeeds, the account is in service with a credential
        accepted for this moment. While the ledger answers and the deadline does not pass, no failed
        credential keeps an account in service; other credentials' fences hold in any case. */
    method SyncAccount(setup: LiveAccount, now: Timestamp, w: World) returns (r: Result<Option<Error>>)
      requires Valid() && setup.id in accounts && accounts[setup.id] == setup
      modifies this, ledger
      ensures Valid() && Touches(setup.credential)
      ensures Answered(w, setup.credential) && old(Fenced()) ==> Fenced()
      ensures r.Ok? ==>
        && setup.id in ledger.accounts && ledger.accounts[setup.id].enabled
        && setup.credential in credentials && credentials[setup.credential].result == Ok(ledger.accounts[setup.id].credential)
      ensures r.Ok? && setup.product == CodexSubscription ==>
        0 <= now && Accepted(setup, now, w, ledger.accounts[setup.id].credential)
      ensures r.Ok? ==>
        var reference := ledger.accounts[setup.id].credential;
        (old(Places(setup, reference)) ==> Placed(setup, reference, ledger.policies, ledger.accounts))
      ensures forall owner :: owner != setup.quotaOwner ==>
        Known(ledger.observations, owner) == Known(old(ledger.observations), owner)
      ensures if r.Ok? && old(Due(setup.quotaOwner, now)) then
          w.reloaded.Ok? && Records(setup.quotaOwner, now, Known(old(ledger.observations), setup.quotaOwner), w.collected, r,
                                    Known(ledger.observations, setup.quotaOwner))
        else ledger.observations == old(ledger.observations)
      ensures KeptOr(old(ledger.observations), ledger.observations, setup.quotaOwner, Reported(w.collected))
      ensures FailedStatus(old(ledger.observations), setup.quotaOwner) ==>
        setup.quotaOwner in ledger.observations && ledger.observations[setup.quotaOwner].status != CapacityStatus.Unknown
    {
      hide Records, Placed, Acceptable, CachedUntil, V.Storable, Lasts, Disabled, OutOfService, Outlives, NeedsRefresh;
      if now < 0 { return Err(NewError(InvalidInput)); }
      var resolved, _ := ResolveCredential(setup, now, w);
      if resolved.Err? { return Err(resolved.error); }
      var reference := resolved.value;
      var placed := Enroll(setup, reference);
      if placed.Err? { return Err(placed.error); }
      r := Collect(setup, now, w);
    }

    /** Evidence about the account's owner, if it is due, with the credential loaded once more. */
    method Collect(setup: LiveAccount, now: Timestamp, w: World) returns (r: Result<Option<Error>>)
      requires Valid() && setup.id in accounts && accounts[setup.id] == setup
      modifies this`credentials, this`enrolled, this`usageRetry, ledger`accounts, ledger`observations
      ensures Valid() && Touches(setup.credential)
      ensures Answered(w, setup.credential) && old(Fenced()) ==> Fenced()
      ensures r.Ok? ==> credentials == old(credentials) && ledger.accounts == old(ledger.accounts)
      ensures forall owner :: owner != setup.quotaOwner ==>
        Known(ledger.observations, owner) == Known(old(ledger.observations), owner)
      ensures if r.Ok? && old(Due(setup.quotaOwner, now)) then
          w.reloaded.Ok? && Records(setup.quotaOwner, now, Known(old(ledger.observations), setup.quotaOwner), w.collected, r,
                                    Known(ledger.observations, setup.quotaOwner))
        else ledger.observations == old(ledger.observations)
      ensures KeptOr(old(ledger.observations), ledger.observations, setup.quotaOwner, Reported(w.collected))
      ensures FailedStatus(old(ledger.observations), setup.quotaOwner) ==>
        setup.quotaOwner in ledger.observations && ledger.observations[setup.quotaOwner].status != CapacityStatus.Unknown
    {
      hide Records, Lasts, Disabled, OutOfService, Aliases;
      var owner := setup.quotaOwner;
      var previous := Known(ledger.observations, owner);
      if owner in usageRetry && now < usageRetry[owner] { return Ok(None); }
      if previous.Some? && previous.value.observedAt <= now
         && now < Min(previous.value.validUntil, Saturating(previous.value.observedAt, FRESH_MS)) {
        return Ok(None);
      }
      if w.reloaded.Err? {
        var e, _ := Fail(setup.credential, now, w.reloaded.error, w);
        return Err(e);
      }
      r := Record(setup, now, previous, w.collected);
    }

    /** What the collector brought back, or failed to. */
    method Record(setup: LiveAccount, now: Timestamp, previous: Option<UsageObservation>, collected: Result<UsageObservation>)
      returns (r: Result<Option<Error>>)
      requires previous == Known(ledger.observations, setup.quotaOwner)
      modifies this`usageRetry, ledger`observations
      ensures Records(setup.quotaOwner, now, previous, collected, r, Known(ledger.observations, setup.quotaOwner))
      ensures r.Err? ==> ledger.observations == old(ledger.observations)
      ensures forall owner :: owner != setup.quotaOwner ==>
        Known(ledger.observations, owner) == Known(old(ledger.observations), owner)
      ensures KeptOr(old(ledger.observations), ledger.observations, setup.quotaOwner, Reported(collected))
      ensures FailedStatus(old(ledger.observations), setup.quotaOwner) ==>
        setup.quotaOwner in ledger.observations && ledger.observations[setup.quotaOwner].status != CapacityStatus.Unknown
    {
      var owner := setup.quotaOwner;
      if collected.Err? {
        usageRetry := usageRetry[owner := Saturating(now, RETRY_MS)];
        if collected.error.code == ErrorCode.ReauthenticationRequired {
          var evidence := if previous.Some? then previous.value.evidence else 0;
          var failed := UsageObservation(owner, now, Saturating(now, FRESH_MS), CapacityStatus.ReauthenticationRequired, evidence);
          var stored := SaveObservation(failed, previous);
          if stored.Err? { return Err(stored.error); }
        }
        return Ok(Some(collected.error));
      }
      var o := collected.value;
      if o.owner != owner || o.observedAt > now || o.validUntil <= o.observedAt
         || (o.status == CapacityStatus.Unknown && previous.Some?
             && (previous.value.status == Exhausted || previous.value.status == CapacityStatus.ReauthenticationRequired)) {
        usageRetry := usageRetry[owner := Saturating(now, RETRY_MS)];
        return Ok(Some(NewError(ErrorCode.CapacityUnknown)));
      }
      var stored := SaveObservation(o, previous);
      if stored.Err? { return Err(stored.error); }
      usageRetry := usageRetry[owner := Saturating(now, RETRY_MS)];
      r := Ok(None);
    }
  }

  function Min(a: int, b: int): int { if a < b then a else b }

  function Known(observations: map<QuotaOwnerId, UsageObservation>, owner: QuotaOwnerId): Option<UsageObservation> {
    if owner in observations then Some(observations[owner]) else None
  }

  /** The evidence is new, or already known. */
  predicate Advances(previous: Option<UsageObservation>, o: UsageObservation) {
    previous.Some? ==> previous.value == o || previous.value.observedAt < o.observedAt
  }

  /** The evidence is this owner's, not of the future, good for some time, and does not forget a refusal. */
  predicate Credible(owner: QuotaOwnerId, now: Timestamp, previous: Option<UsageObservation>, o: UsageObservation) {
    && o.owner == owner && o.observedAt <= now && o.observedAt < o.validUntil
    && (o.status == CapacityStatus.Unknown && previous.Some? ==>
          previous.value.status == Available || previous.value.status == CapacityStatus.Unknown)
  }

  /** What a collection leaves on record and answers: credible evidence that advances is stored as it
      is, a refused credential is put on record, and anything else changes nothing. */
  predicate Records(owner: QuotaOwnerId, now: Timestamp, previous: Option<UsageObservation>, collected: Result<UsageObservation>,
      r: Result<Option<Error>>, after: Option<UsageObservation>)
  {
    if collected.Ok? then
      var o := collected.value;
      if !Credible(owner, now, previous, o) then r == Ok(Some(NewError(ErrorCode.CapacityUnknown))) && after == previous
      else if 0 <= o.observedAt && Advances(previous, o) then r == Ok(None) && after == Some(o)
      else r.Err? && after == previous
    else if collected.error.code == ErrorCode.ReauthenticationRequired then
      var o := UsageObservation(owner, now, Saturating(now, 30_000), CapacityStatus.ReauthenticationRequired,
                                if previous.Some? then previous.value.evidence else 0);
      if 0 <= now < o.validUntil && Advances(previous, o) then r == Ok(Some(collected.error)) && after == Some(o)
      else r.Err? && after == previous
    else r == Ok(Some(collected.error)) && after == previous
  }

  /** The only status a collection can put on record. */
  function Reported(collected: Result<UsageObservation>): CapacityStatus {
    if collected.Ok? then collected.value.status else CapacityStatus.ReauthenticationRequired
  }

  /** The owner's record is the old one, or carries this status. */
  predicate KeptOr(before: map<QuotaOwnerId, UsageObservation>, after: map<QuotaOwnerId, UsageObservation>,
      owner: QuotaOwnerId, status: CapacityStatus)
  {
    Known(after, owner) == Known(before, owner) || (owner in after && after[owner].status == status)
  }

  /** The provider was last known to refuse this owner. */
  predicate FailedStatus(observations: map<QuotaOwnerId, UsageObservation>, owner: QuotaOwnerId) {
    owner in observations
    && (observations[owner].status == Exhausted || observations[owner].status == CapacityStatus.ReauthenticationRequired)
  }

  lemma SameStorable(t: T.Rows, policy: QuotaPolicy, account: Account)
    ensures V.Storable(T.PutPolicy(t, policy).rows, account) <==> V.Storable(t, account)
  {
  }

  lemma PolicyTakes(t: T.Rows, policy: QuotaPolicy)
    ensures T.PutPolicy(t, policy).rows.observations == t.observations
    ensures T.PutPolicy(t, policy).rows.accounts == t.accounts
  {
  }

  lemma PutTakes(t: T.Rows, account: Account)
    ensures var o := T.PutAccount(t, account);
      && o.rows.observations == t.observations
      && o.rows.accounts == if o.result.Ok? then t.accounts[account.id := account] else t.accounts
  {
  }
}
