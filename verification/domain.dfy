/** The records the ledger stores and the values its callers exchange. */
module Domain {
  // Identifiers are opaque and totally ordered; the ledger only compares them.
  type AccountId = nat
  type QuotaOwnerId = nat
  type CredentialId = nat
  type PoolId = nat
  type PrincipalId = nat
  type ClientSessionId = nat
  type BindingId = nat
  type AttemptId = nat
  type OperationId = nat

  /** Unix milliseconds supplied by the application clock. */
  type Timestamp = int

  type Bytes = seq<bv8>

  datatype Option<+T> = None | Some(value: T)

  datatype Product = CodexSubscription | KimiCoding | GlmCoding | DeepseekPayg

  datatype CredentialRef = CredentialRef(id: CredentialId, generation: nat)

  /** Model set entry meaning the account serves any model its provider accepts. */
  const ANY_MODEL := "*"

  datatype Account = Account(
    id: AccountId,
    product: Product,
    quotaOwner: QuotaOwnerId,
    pools: set<PoolId>,
    credential: CredentialRef,
    models: set<string>,
    enabled: bool)
  {
    predicate Serves(model: string) {
      ANY_MODEL in models || model in models
    }
  }

  datatype UnknownCapacityPolicy = Reject | AllowUnderLocalCap
  datatype QuotaPolicy = QuotaPolicy(owner: QuotaOwnerId, maxConcurrency: nat, unknown: UnknownCapacityPolicy)

  datatype CapacityStatus = Available | Exhausted | Unknown | ReauthenticationRequired

  /** Windows and balances are opaque evidence here: only equality with a stored observation matters. */
  datatype UsageObservation = UsageObservation(
    owner: QuotaOwnerId,
    observedAt: Timestamp,
    validUntil: Timestamp,
    status: CapacityStatus,
    evidence: int)

  datatype Principal = Principal(id: PrincipalId, pools: set<PoolId>, admin: bool)

  datatype CreateBinding = CreateBinding(
    session: ClientSessionId,
    pool: PoolId,
    product: Product,
    model: Option<string>,
    account: Option<AccountId>,
    effort: Option<string>)

  datatype Binding = Binding(
    id: BindingId,
    principal: PrincipalId,
    intent: CreateBinding,
    account: AccountId,
    createdAt: Timestamp,
    closedAt: Option<Timestamp>)

  datatype AttemptState = Reserved | Dispatching | Streaming | Uncertain | Succeeded | Rejected | NotDispatched
  {
    predicate HoldsCapacity() {
      Reserved? || Dispatching? || Streaming? || Uncertain?
    }

    /** Work whose execution may still be running: everything holding capacity except uncertain rows. */
    predicate Active() {
      Reserved? || Dispatching? || Streaming?
    }

    function Certainty(): DispatchCertainty {
      match this
      case Reserved | NotDispatched => DispatchCertainty.NotDispatched
      case Dispatching | Uncertain => DispatchCertainty.Unknown
      case _ => DispatchCertainty.Dispatched
    }
  }

  datatype DispatchCertainty = NotDispatched | Dispatched | Unknown

  datatype Settlement = Succeeded | Rejected | NotDispatched | Uncertain
  {
    function State(): AttemptState {
      match this
      case Succeeded => AttemptState.Succeeded
      case Rejected => AttemptState.Rejected
      case NotDispatched => AttemptState.NotDispatched
      case Uncertain => AttemptState.Uncertain
    }

    /** The two outcomes a provider can prove. */
    predicate Evidence() {
      Succeeded? || Rejected?
    }
  }

  datatype AttemptResolution = AttemptResolution(
    principal: PrincipalId, outcome: Settlement, rationale: string, resolvedAt: Timestamp)

  datatype Attempt = Attempt(
    id: AttemptId,
    binding: BindingId,
    quotaOwner: QuotaOwnerId,
    operation: Option<OperationId>,
    fingerprint: string,
    credential: CredentialRef,
    state: AttemptState,
    createdAt: Timestamp,
    updatedAt: Timestamp,
    resolution: Option<AttemptResolution>)

  datatype Admission = Admission(
    binding: BindingId,
    operation: Option<OperationId>,
    fingerprint: string,
    model: string,
    effort: Option<string>)

  datatype PreparedAttempt = PreparedAttempt(attempt: Attempt, binding: Binding, account: Account)

  datatype ErrorCode =
    | Unauthorized | Forbidden | NotFound | Closed | IntentConflict | NoEligibleAccount
    | SessionQuotaExhausted | SessionConcurrencyExhausted | CapacityUnknown | ReauthenticationRequired
    | Unsupported | SessionUncertain | OperationConflict | OperationAlreadyExists | InvalidTransition
    | InvalidInput | StorageUnavailable | CredentialUnavailable | UpstreamUnavailable

  datatype AccountExclusion = AccountExclusion(account: AccountId, code: ErrorCode)

  datatype Error = Error(
    code: ErrorCode,
    binding: Option<BindingId>,
    attempt: Option<AttemptId>,
    requestState: DispatchCertainty,
    exclusions: seq<AccountExclusion>)
  {
    function Bound(id: BindingId): Error { this.(binding := Some(id)) }
    function WithAttempt(id: AttemptId): Error { this.(attempt := Some(id)) }
    function WithExclusions(list: seq<AccountExclusion>): Error { this.(exclusions := list) }
  }

  function NewError(code: ErrorCode): Error {
    Error(code, None, None, DispatchCertainty.NotDispatched, [])
  }

  datatype Result<+T> = Ok(value: T) | Err(error: Error)

  /** Unicode's white space. */
  predicate IsSpace(c: char) {
    var n := c as int;
    || 0x9 <= n <= 0xD || n in {0x20, 0x85, 0xA0, 0x1680, 0x2028, 0x2029, 0x202F, 0x205F, 0x3000}
    || 0x2000 <= n <= 0x200A
  }

  /** How many bytes the text takes in UTF-8. */
  function ByteLength(text: string): nat {
    if text == "" then 0
    else
      var n := text[0] as int;
      (if n < 0x80 then 1 else if n < 0x800 then 2 else if n < 0x1_0000 then 3 else 4) + ByteLength(text[1..])
  }

  /** Nothing is left of the text once surrounding whitespace is trimmed. */
  predicate Blank(text: string) {
    forall c :: c in text ==> IsSpace(c)
  }

  function Max(a: int, b: int): int {
    if a < b then b else a
  }
}
