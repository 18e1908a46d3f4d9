/** The refresh fence: one credential exchange per stored generation, whatever callers
    race, fail or crash. The vault behind the fence may answer anything. */
module Refresh {
  import opened Domain
  import opened Codex
  import T = Tables
  import L = Laws
  import System
  import Runs

  const SKEW: int := 300_000

  /** A marker file, possibly left half-written. */
  datatype Marker = Torn | Pending(generation: nat, identity: (string, Option<string>), access: string)

  type CallId = nat

  datatype Stage =
    | Waiting                                                        // for the credential's lock
    | Locked
    | Read(ref: CredentialRef, secret: Secret)                       // the vault answered
    | Floored(ref: CredentialRef, secret: Secret)                    // the watermark took the generation
    | Clear(ref: CredentialRef, auth: Auth)                          // no marker, refresh wanted
    | Created(ref: CredentialRef, auth: Auth)                        // marker file exists, empty
    | Written(ref: CredentialRef, auth: Auth)
    | Fenced(ref: CredentialRef, auth: Auth)                         // marker is durable
    | Issued(ref: CredentialRef, auth: Auth)                         // the exchange began
    | Exchanged(ref: CredentialRef, usable: bool)                    // checked, to be written back
    | Replaced(ref: CredentialRef, updated: CredentialRef, usable: bool)
    | Settled(updated: CredentialRef)                                // the watermark took the new generation
    | Removed(updated: CredentialRef)                                // marker gone, not yet durably
    | Finished(result: Result<CredentialRef>)
  {
    predicate Holds() { !Waiting? && !Finished? }

    /** The exchange may have happened and its outcome is not settled. */
    predicate Ambiguous() { Fenced? || Issued? || Exchanged? || Replaced? }
  }

  datatype Call = Call(
    id: CredentialId, product: Product, expected: Option<string>, now: Timestamp, force: bool, stage: Stage)

  datatype Fence = Fence(
    rows: T.Rows,
    calls: map<CallId, Call>,
    holder: map<CredentialId, CallId>,     // in-process locks
    visible: map<CredentialId, Marker>,    // marker files
    durable: map<CredentialId, Marker>,    // what would survive a crash for certain
    issued: seq<CredentialRef>)            // exchanges begun, in order

  const START := Fence(T.EMPTY, map[], map[], map[], map[], [])

  datatype Event =
    | Begin(k: CallId, id: CredentialId, product: Product, expected: Option<string>, now: Timestamp, force: bool)
    | Acquire(k: CallId)
    | Latest(k: CallId, generation: nat, secret: Secret)   // any answer, however stale
    | Watermark(k: CallId, reply: System.Reply)
    | Inspect(k: CallId)
    | Create(k: CallId)
    | Write(k: CallId)
    | Sync(k: CallId)
    | Exchange(k: CallId)
    | Receive(k: CallId, next: Secret)
    | Replace(k: CallId, generation: nat)
    | Remove(k: CallId)
    | SyncRemoval(k: CallId)
    | Fail(k: CallId)                                      // any awaited operation fails
    | Ledger(op: System.AdminOp, clock: nat)               // anything else that writes the ledger
    | Crash(kept: set<CredentialId>)                       // unsynced file changes survive for these

  function Unresolved<A>(): Result<A> { Err(NewError(ErrorCode.ReauthenticationRequired)) }

  /** Only the call's own stage moves. */
  predicate Moved(f: Fence, g: Fence, k: CallId, c: Call) {
    k in g.calls && g.calls == f.calls[k := c.(stage := g.calls[k].stage)]
  }

  function Move(f: Fence, k: CallId, c: Call, stage: Stage): Fence {
    f.(calls := f.calls[k := c.(stage := stage)])
  }

  /** The call returns and its lock is released. */
  function End(f: Fence, k: CallId, c: Call, result: Result<CredentialRef>): Fence {
    Move(f, k, c, Finished(result)).(holder := f.holder - {c.id})
  }

  /** What is decided once the generation is accepted and before any marker is considered. */
  function Verdict(c: Call, ref: CredentialRef, secret: Secret): Option<Result<CredentialRef>> {
    if c.product != CodexSubscription then
      if c.force then Some(Err(NewError(ErrorCode.Unsupported)))
      else if secret.empty then Some(Err(NewError(ErrorCode.CredentialUnavailable)))
      else Some(Ok(ref))
    else if secret.auth.None? then Some(Err(NewError(ErrorCode.CredentialUnavailable)))
    else if c.expected != Some(secret.auth.value.account) then
      Some(Err(NewError(ErrorCode.ReauthenticationRequired)))
    else None
  }

  function InspectMarker(f: Fence, k: CallId, c: Call): (g: Fence)
    requires c.stage.Floored?
    ensures Moved(f, g, k, c)
    ensures g.visible == f.visible && g.durable == f.durable
    ensures g.calls[k].stage == Finished(Ok(c.stage.ref)) && c.product == CodexSubscription ==> c.id !in f.visible
    ensures g.calls[k].stage.Finished? && g.calls[k].stage.result.Ok? ==> g.calls[k].stage.result.value == c.stage.ref
  {
    var ref, secret := c.stage.ref, c.stage.secret;
    var verdict := Verdict(c, ref, secret);
    if verdict.Some? then End(f, k, c, verdict.value)
    else if c.id in f.visible then
      End(f, k, c, if f.visible[c.id].Torn? then Err(NewError(ErrorCode.CredentialUnavailable)) else Unresolved())
    else
      var auth := secret.auth.value;
      if c.force then Move(f, k, c, Clear(ref, auth))
      else match NeedsRefresh(auth, c.now, SKEW)
        case Err(e) => End(f, k, c, Err(e))
        case Ok(false) => End(f, k, c, Ok(ref))
        case Ok(true) => Move(f, k, c, Clear(ref, auth))
  }

  /** The exchange answered; the bundle must be the same identity before it is written back. */
  function Check(f: Fence, k: CallId, c: Call, next: Secret): (g: Fence)
    requires c.stage.Issued?
    ensures Moved(f, g, k, c)
    ensures g.visible == f.visible && g.durable == f.durable
    ensures g.calls[k].stage.Finished? ==> g.calls[k].stage.result.Err?
  {
    if next.auth.None? then End(f, k, c, Err(NewError(ErrorCode.CredentialUnavailable)))
    else if Identity(next.auth.value) != Identity(c.stage.auth) then
      End(f, k, c, Err(NewError(ErrorCode.ReauthenticationRequired)))
    else match NeedsRefresh(next.auth.value, c.now, SKEW)
      case Err(e) => End(f, k, c, Err(e))
      case Ok(stale) => Move(f, k, c, Exchanged(c.stage.ref, !stale))
  }

  function TakeWatermark(f: Fence, k: CallId, c: Call, reply: System.Reply): (g: Fence)
    requires c.stage.Read? || c.stage.Replaced?
    ensures Moved(f, g, k, c)
    ensures g.visible == f.visible && g.durable == f.durable
    ensures g.calls[k].stage.Finished? ==> g.calls[k].stage.result.Err?
  {
    var ref := if c.stage.Read? then c.stage.ref else c.stage.updated;
    var o := T.AdvanceCredential(f.rows, ref);
    var after := f.(rows := System.Applied(f.rows, o, reply));
    match System.Answer(o, reply)
    case Err(e) => End(after, k, c, Err(e))
    case Ok(_) =>
      if c.stage.Read? then Move(after, k, c, Floored(ref, c.stage.secret))
      else if !c.stage.usable then End(after, k, c, Unresolved())
      else Move(after, k, c, Settled(ref))
  }

  function Act(f: Fence, k: CallId, c: Call, ev: Event): Fence {
    match ev
    case Acquire(_) =>
      if c.stage.Waiting? && c.id !in f.holder then Move(f, k, c, Locked).(holder := f.holder[c.id := k]) else f
    case Latest(_, generation, secret) =>
      if c.stage.Locked? then Move(f, k, c, Read(CredentialRef(c.id, generation), secret)) else f
    case Watermark(_, reply) => if c.stage.Read? || c.stage.Replaced? then TakeWatermark(f, k, c, reply) else f
    case Inspect(_) => if c.stage.Floored? then InspectMarker(f, k, c) else f
    case Create(_) =>
      if !c.stage.Clear? then f
      else if c.id in f.visible then End(f, k, c, Err(NewError(ErrorCode.CredentialUnavailable)))
      else Move(f, k, c, Created(c.stage.ref, c.stage.auth)).(visible := f.visible[c.id := Torn])
    case Write(_) =>
      if !c.stage.Created? then f
      else
        var marker := Pending(c.stage.ref.generation, Identity(c.stage.auth), c.stage.auth.access);
        Move(f, k, c, Written(c.stage.ref, c.stage.auth)).(visible := f.visible[c.id := marker])
    case Sync(_) =>
      if c.stage.Written? && c.id in f.visible then
        Move(f, k, c, Fenced(c.stage.ref, c.stage.auth)).(durable := f.durable[c.id := f.visible[c.id]])
      else f
    case Exchange(_) =>
      if c.stage.Fenced? then Move(f, k, c, Issued(c.stage.ref, c.stage.auth)).(issued := f.issued + [c.stage.ref]) else f
    case Receive(_, next) => if c.stage.Issued? then Check(f, k, c, next) else f
    case Replace(_, generation) =>
      // A replace that reports success reports a larger generation.
      if c.stage.Exchanged? && generation > c.stage.ref.generation then
        Move(f, k, c, Replaced(c.stage.ref, CredentialRef(c.id, generation), c.stage.usable))
      else f
    case Remove(_) =>
      if c.stage.Settled? then Move(f, k, c, Removed(c.stage.updated)).(visible := f.visible - {c.id}) else f
    case SyncRemoval(_) =>
      if c.stage.Removed? then End(f.(durable := f.durable - {c.id}), k, c, Ok(c.stage.updated)) else f
    case Fail(_) => if c.stage.Holds() then End(f, k, c, Err(NewError(ErrorCode.CredentialUnavailable))) else f
    case _ => f
  }

  ghost function Step(f: Fence, ev: Event): Fence {
    match ev
    case Begin(k, id, product, expected, now, force) =>
      if k in f.calls then f else f.(calls := f.calls[k := Call(id, product, expected, now, force, Waiting)])
    case Ledger(op, clock) => f.(rows := System.Administer(f.rows, op, clock))
    case Crash(kept) =>
      var files := map id | id in f.visible.Keys + f.durable.Keys && (id in kept ==> id in f.visible)
                            && (id !in kept ==> id in f.durable) ::
                     if id in kept then f.visible[id] else f.durable[id];
      f.(calls := map[], holder := map[], visible := files, durable := files)
    case _ => if ev.k in f.calls then Act(f, ev.k, f.calls[ev.k], ev) else f
  }

  ghost function Replay(f: Fence, events: seq<Event>): Fence {
    if events == [] then f else Step(Replay(f, events[..|events| - 1]), events[|events| - 1])
  }

  ghost function Run(events: seq<Event>): Fence { Replay(START, events) }

  /** A run carried on by another is a run: what holds of runs holds of every resolution's end. */
  lemma {:induction false} ReplaysJoin(f: Fence, first: seq<Event>, second: seq<Event>)
    ensures Replay(Replay(f, first), second) == Replay(f, first + second)
    decreases |second|
  {
    if second == [] {
      assert first + second == first;
    } else {
      ReplaysJoin(f, first, second[..|second| - 1]);
      assert (first + second)[..|first + second| - 1] == first + second[..|second| - 1];
      hide Step;
    }
  }

  // ---------------------------------------------------------------------- invariant

  /** Every exchange at this credential was for a generation below the bound. */
  ghost predicate Below(issued: seq<CredentialRef>, id: CredentialId, bound: nat) {
    forall i :: 0 <= i < |issued| && issued[i].id == id ==> issued[i].generation < bound
  }

  ghost predicate Floors(rows: T.Rows, id: CredentialId, generation: nat) {
    T.Floor(rows, id).Some? && generation <= T.Floor(rows, id).value
  }

  ghost predicate Marked(f: Fence, id: CredentialId) { id in f.visible && id in f.durable }

  /** Before the exchange the call has a marker of its own and a generation never exchanged. */
  ghost predicate Preparing(f: Fence, id: CredentialId, ref: CredentialRef) {
    ref.id == id && Below(f.issued, id, ref.generation)
  }

  ghost predicate Exchanging(f: Fence, id: CredentialId, ref: CredentialRef) {
    ref.id == id && Marked(f, id) && Below(f.issued, id, ref.generation + 1)
  }

  ghost predicate Done(f: Fence, id: CredentialId, updated: CredentialRef) {
    updated.id == id && Floors(f.rows, id, updated.generation) && Below(f.issued, id, updated.generation)
  }

  ghost predicate StageInv(f: Fence, c: Call) {
    match c.stage
    case Read(ref, _) => ref.id == c.id
    case Floored(ref, _) => ref.id == c.id && (Marked(f, c.id) || Below(f.issued, c.id, ref.generation))
    case Clear(ref, _) => Preparing(f, c.id, ref) && c.id !in f.visible
    case Created(ref, _) => Preparing(f, c.id, ref) && c.id in f.visible
    case Written(ref, _) => Preparing(f, c.id, ref) && c.id in f.visible
    case Fenced(ref, _) => Preparing(f, c.id, ref) && Marked(f, c.id)
    case Issued(ref, _) => Exchanging(f, c.id, ref)
    case Exchanged(ref, _) => Exchanging(f, c.id, ref)
    case Replaced(_, updated, _) =>
      updated.id == c.id && Marked(f, c.id) && Below(f.issued, c.id, updated.generation)
    case Settled(updated) => Done(f, c.id, updated)
    case Removed(updated) => Done(f, c.id, updated) && c.id !in f.visible
    case _ => true
  }

  ghost predicate LockInv(f: Fence) {
    && (forall k :: k in f.calls && f.calls[k].stage.Holds() ==>
          f.calls[k].id in f.holder && f.holder[f.calls[k].id] == k)
    && (forall id :: id in f.holder ==>
          f.holder[id] in f.calls && f.calls[f.holder[id]].id == id && f.calls[f.holder[id]].stage.Holds())
  }

  /** A generation already exchanged is behind the watermark or behind a marker. */
  ghost predicate Behind(f: Fence, r: CredentialRef) {
    Marked(f, r.id) || Floors(f.rows, r.id, r.generation + 1)
  }

  ghost predicate Distinct(issued: seq<CredentialRef>) {
    forall i, j :: 0 <= i < j < |issued| ==> issued[i] != issued[j]
  }

  ghost predicate CallsInv(f: Fence) { forall k :: k in f.calls ==> StageInv(f, f.calls[k]) }

  ghost predicate IssuedInv(f: Fence) { forall i :: 0 <= i < |f.issued| ==> Behind(f, f.issued[i]) }

  ghost predicate Inv(f: Fence) {
    LockInv(f) && CallsInv(f) && IssuedInv(f) && Distinct(f.issued) && L.Consistent(f.rows)
  }

  // --------------------------------------------------------------------- preservation

  /** Nothing outside the call's own credential moves. */
  ghost predicate Local(f: Fence, g: Fence, k: CallId, c: Call) {
    && g.calls.Keys == f.calls.Keys && k in f.calls && f.calls[k] == c && g.calls[k].id == c.id
    && (forall j :: j in f.calls && j != k ==> g.calls[j] == f.calls[j])
    && (forall id :: id != c.id ==> (id in g.visible <==> id in f.visible) && (id in g.durable <==> id in f.durable))
    && (g.issued == f.issued || (|g.issued| > 0 && g.issued[|g.issued| - 1].id == c.id
                                 && g.issued == f.issued + [g.issued[|g.issued| - 1]]))
    && L.FloorsRise(f.rows, g.rows)
  }

  lemma OthersKeep(f: Fence, g: Fence, k: CallId, c: Call, j: CallId)
    requires Inv(f) && Local(f, g, k, c) && j in f.calls && j != k
    requires f.calls[j].stage.Holds() ==> f.calls[j].id != c.id
    ensures StageInv(g, g.calls[j])
  {
    var d := f.calls[j];
    assert StageInv(f, d);
    assert L.Raises(T.Floor(f.rows, d.id), T.Floor(g.rows, d.id));
  }

  lemma LocalKeeps(f: Fence, g: Fence, k: CallId, c: Call)
    requires Inv(f) && Local(f, g, k, c) && c.stage.Holds()
    requires StageInv(g, g.calls[k]) && LockInv(g) && IssuedInv(g) && Distinct(g.issued) && L.Consistent(g.rows)
    ensures Inv(g)
  {
    forall j | j in g.calls
      ensures StageInv(g, g.calls[j])
    {
      if j != k { OthersKeep(f, g, k, c, j); }
    }
  }

  lemma SameFloors(rows: T.Rows)
    ensures L.FloorsRise(rows, rows)
  {
  }

  /** Moving on with the lock held, or ending and giving it back, keeps the locks straight. */
  lemma LocksKeep(f: Fence, g: Fence, k: CallId, c: Call)
    requires LockInv(f) && k in f.calls && f.calls[k] == c && c.stage.Holds()
    requires k in g.calls && g.calls == f.calls[k := g.calls[k]] && g.calls[k].id == c.id
    requires if g.calls[k].stage.Holds() then g.holder == f.holder
             else g.holder == f.holder - {c.id}
    ensures LockInv(g)
  {
    assert f.holder[c.id] == k;
  }

  lemma {:induction false} FloorsKeep(f: Fence, g: Fence, id: CredentialId, generation: nat)
    requires L.FloorsRise(f.rows, g.rows) && Floors(f.rows, id, generation)
    ensures Floors(g.rows, id, generation)
  {
    assert L.Raises(T.Floor(f.rows, id), T.Floor(g.rows, id));
  }

  /** Exchanges stay behind the fence as long as this credential's do. */
  lemma IssuedKeep(f: Fence, g: Fence, k: CallId, c: Call)
    requires IssuedInv(f) && Local(f, g, k, c)
    requires forall i :: 0 <= i < |g.issued| && g.issued[i].id == c.id ==> Behind(g, g.issued[i])
    ensures IssuedInv(g)
  {
    forall i | 0 <= i < |g.issued|
      ensures Behind(g, g.issued[i])
    {
      if g.issued[i].id != c.id {
        assert i < |f.issued| && g.issued[i] == f.issued[i] && Behind(f, f.issued[i]);
        if !Marked(f, g.issued[i].id) { FloorsKeep(f, g, g.issued[i].id, g.issued[i].generation + 1); }
      }
    }
  }

  /** Steps that change only the stage, without touching files, exchanges or the ledger. */
  lemma StageKeeps(f: Fence, k: CallId, c: Call, stage: Stage)
    requires Inv(f) && k in f.calls && f.calls[k] == c && c.stage.Holds() && stage.Holds()
    requires StageInv(f, c.(stage := stage))
    ensures Inv(Move(f, k, c, stage))
  {
    var g := Move(f, k, c, stage);
    SameFloors(f.rows);
    LocksKeep(f, g, k, c);
    assert IssuedInv(g) by {
      assert forall i :: 0 <= i < |f.issued| ==> Behind(f, f.issued[i]) && (Behind(g, f.issued[i]) <==> Behind(f, f.issued[i]));
    }
    LocalKeeps(f, g, k, c);
  }

  lemma EndKeeps(f: Fence, k: CallId, c: Call, result: Result<CredentialRef>)
    requires Inv(f) && k in f.calls && f.calls[k] == c && c.stage.Holds()
    ensures Inv(End(f, k, c, result))
  {
    var g := End(f, k, c, result);
    SameFloors(f.rows);
    LocksKeep(f, g, k, c);
    assert IssuedInv(g) by {
      assert forall i :: 0 <= i < |f.issued| ==> Behind(f, f.issued[i]) && (Behind(g, f.issued[i]) <==> Behind(f, f.issued[i]));
    }
    LocalKeeps(f, g, k, c);
  }

  lemma AcquireKeeps(f: Fence, k: CallId, c: Call)
    requires Inv(f) && k in f.calls && f.calls[k] == c && c.stage.Waiting? && c.id !in f.holder
    ensures Inv(Move(f, k, c, Locked).(holder := f.holder[c.id := k]))
  {
    var g := Move(f, k, c, Locked).(holder := f.holder[c.id := k]);
    assert LockInv(g);
    forall j | j in g.calls
      ensures StageInv(g, g.calls[j])
    {
      assert StageInv(f, f.calls[j]);
    }
    assert forall i :: 0 <= i < |f.issued| ==> Behind(f, f.issued[i]) && (Behind(g, f.issued[i]) <==> Behind(f, f.issued[i]));
  }

  /** The ledger moves underneath: floors only rise. */
  lemma RowsKeep(f: Fence, rows: T.Rows)
    requires Inv(f) && L.FloorsRise(f.rows, rows) && L.Consistent(rows)
    ensures Inv(f.(rows := rows))
  {
    var g := f.(rows := rows);
    forall j | j in g.calls
      ensures StageInv(g, g.calls[j])
    {
      assert StageInv(f, f.calls[j]);
      assert L.Raises(T.Floor(f.rows, f.calls[j].id), T.Floor(rows, f.calls[j].id));
    }
    forall i | 0 <= i < |g.issued|
      ensures Behind(g, g.issued[i])
    {
      assert Behind(f, f.issued[i]);
      if !Marked(f, g.issued[i].id) { FloorsKeep(f, g, g.issued[i].id, g.issued[i].generation + 1); }
    }
  }

  lemma WatermarkKeeps(f: Fence, k: CallId, c: Call, reply: System.Reply)
    requires Inv(f) && k in f.calls && f.calls[k] == c && (c.stage.Read? || c.stage.Replaced?)
    ensures Inv(TakeWatermark(f, k, c, reply))
  {
    var ref := if c.stage.Read? then c.stage.ref else c.stage.updated;
    var o := T.AdvanceCredential(f.rows, ref);
    var after := f.(rows := System.Applied(f.rows, o, reply));
    assert StageInv(f, c);
    L.CredentialKeeps(f.rows, ref);
    L.FloorAdvances(f.rows, ref);
    SameFloors(f.rows);
    RowsKeep(f, after.rows);
    if System.Answer(o, reply).Err? {
      EndKeeps(after, k, c, Err(System.Answer(o, reply).error));
    } else if c.stage.Replaced? && !c.stage.usable {
      EndKeeps(after, k, c, Unresolved());
    } else if c.stage.Read? {
      FlooredHolds(f, after, c, ref);
      StageKeeps(after, k, c, Floored(ref, c.stage.secret));
    } else {
      StageKeeps(after, k, c, Settled(ref));
    }
  }

  /** An accepted generation is at least the floor, so every earlier exchange is behind it. */
  lemma FlooredHolds(f: Fence, after: Fence, c: Call, ref: CredentialRef)
    requires IssuedInv(f) && after == f.(rows := T.AdvanceCredential(f.rows, ref).rows)
    requires T.AdvanceCredential(f.rows, ref).result.Ok? && ref.id == c.id
    ensures Marked(after, c.id) || Below(after.issued, c.id, ref.generation)
  {
    if !Marked(after, c.id) {
      forall i | 0 <= i < |f.issued| && f.issued[i].id == c.id
        ensures f.issued[i].generation < ref.generation
      {
        assert Behind(f, f.issued[i]);
      }
    }
  }

  lemma InspectKeeps(f: Fence, k: CallId, c: Call)
    requires Inv(f) && k in f.calls && f.calls[k] == c && c.stage.Floored?
    ensures Inv(InspectMarker(f, k, c))
  {
    assert StageInv(f, c);
    var g := InspectMarker(f, k, c);
    if g.calls[k].stage.Clear? {
      StageKeeps(f, k, c, g.calls[k].stage);
    } else {
      EndKeeps(f, k, c, g.calls[k].stage.result);
    }
  }

  lemma CheckKeeps(f: Fence, k: CallId, c: Call, next: Secret)
    requires Inv(f) && k in f.calls && f.calls[k] == c && c.stage.Issued?
    ensures Inv(Check(f, k, c, next))
  {
    assert StageInv(f, c);
    var g := Check(f, k, c, next);
    if g.calls[k].stage.Exchanged? {
      StageKeeps(f, k, c, g.calls[k].stage);
    } else {
      EndKeeps(f, k, c, g.calls[k].stage.result);
    }
  }

  ghost predicate SettledBelow(f: Fence, id: CredentialId) {
    forall i :: 0 <= i < |f.issued| && f.issued[i].id == id ==> Floors(f.rows, id, f.issued[i].generation + 1)
  }

  /** Steps on the marker file; the exchanges of this credential must stay behind the fence. */
  lemma FilesKeep(f: Fence, g: Fence, k: CallId, c: Call)
    requires Inv(f) && k in f.calls && f.calls[k] == c && c.stage.Holds()
    requires k in g.calls && g.calls[k].stage.Holds()
    requires g == f.(calls := f.calls[k := c.(stage := g.calls[k].stage)], visible := g.visible, durable := g.durable)
    requires Local(f, g, k, c) && StageInv(g, g.calls[k])
    requires !Marked(f, c.id) || Marked(g, c.id) || SettledBelow(f, c.id)
    ensures Inv(g)
  {
    LocksKeep(f, g, k, c);
    forall i | 0 <= i < |g.issued| && g.issued[i].id == c.id
      ensures Behind(g, g.issued[i])
    {
      assert Behind(f, f.issued[i]);
    }
    IssuedKeep(f, g, k, c);
    LocalKeeps(f, g, k, c);
  }

  ghost predicate MarkerEvent(ev: Event) { ev.Create? || ev.Write? || ev.Sync? || ev.Remove? }

  /** A step on the marker file is the call's own, and leaves its stage as it should be. */
  lemma MarkerLocal(f: Fence, k: CallId, c: Call, ev: Event)
    requires k in f.calls && f.calls[k] == c && c.stage.Holds() && StageInv(f, c) && MarkerEvent(ev)
    requires L.FloorsRise(f.rows, f.rows)
    ensures var g := Act(f, k, c, ev);
      g != f && g.calls[k].stage.Holds() ==>
        && g == f.(calls := f.calls[k := c.(stage := g.calls[k].stage)], visible := g.visible, durable := g.durable)
        && Local(f, g, k, c) && StageInv(g, g.calls[k]) && (!Marked(f, c.id) || Marked(g, c.id) || SettledBelow(f, c.id))
  {
    hide InspectMarker, Check, TakeWatermark, L.FloorsRise;
  }

  lemma MarkerEnds(f: Fence, k: CallId, c: Call, ev: Event)
    requires k in f.calls && f.calls[k] == c && c.stage.Holds() && StageInv(f, c) && MarkerEvent(ev)
    ensures var g := Act(f, k, c, ev);
      k in g.calls && (g.calls[k].stage.Holds() || g == End(f, k, c, Err(NewError(ErrorCode.CredentialUnavailable))))
  {
    hide InspectMarker, Check, TakeWatermark;
  }

  lemma MarkerKeeps(f: Fence, k: CallId, c: Call, ev: Event)
    requires Inv(f) && k in f.calls && f.calls[k] == c && c.stage.Holds() && MarkerEvent(ev)
    ensures Inv(Act(f, k, c, ev))
  {
    assert StageInv(f, c);
    SameFloors(f.rows);
    hide Inv, Act, Local, StageInv, Marked, SettledBelow, End;
    MarkerLocal(f, k, c, ev);
    MarkerEnds(f, k, c, ev);
    var g := Act(f, k, c, ev);
    if g.calls[k].stage.Holds() {
      if g != f { FilesKeep(f, g, k, c); }
    } else {
      EndKeeps(f, k, c, Err(NewError(ErrorCode.CredentialUnavailable)));
    }
  }

  lemma SyncRemovalKeeps(f: Fence, k: CallId, c: Call)
    requires Inv(f) && k in f.calls && f.calls[k] == c && c.stage.Removed?
    ensures Inv(Act(f, k, c, SyncRemoval(k)))
  {
    var g := f.(durable := f.durable - {c.id});
    assert StageInv(f, c);
    SameFloors(f.rows);
    assert g.calls == f.calls[k := c];
    FilesKeep(f, g, k, c);
    EndKeeps(g, k, c, Ok(c.stage.updated));
  }

  /** The exchange is issued for a generation no exchange was issued for. */
  lemma ExchangeKeeps(f: Fence, k: CallId, c: Call)
    requires Inv(f) && k in f.calls && f.calls[k] == c && c.stage.Fenced?
    ensures Inv(Act(f, k, c, Exchange(k)))
  {
    var g := Act(f, k, c, Exchange(k));
    var ref := c.stage.ref;
    assert StageInv(f, c);
    SameFloors(f.rows);
    LocksKeep(f, g, k, c);
    assert g.issued[|g.issued| - 1] == ref;
    assert Local(f, g, k, c);
    IssuedKeep(f, g, k, c);
    forall i | 0 <= i < |f.issued|
      ensures f.issued[i] != ref
    {
    }
    LocalKeeps(f, g, k, c);
  }

  lemma CrashKeeps(f: Fence, kept: set<CredentialId>)
    requires Inv(f)
    ensures Inv(Step(f, Crash(kept)))
  {
    var g := Step(f, Crash(kept));
    forall i | 0 <= i < |g.issued|
      ensures Behind(g, g.issued[i])
    {
      assert Behind(f, f.issued[i]);
    }
  }

  lemma ReadKeeps(f: Fence, k: CallId, c: Call, generation: nat, secret: Secret)
    requires Inv(f) && k in f.calls && f.calls[k] == c && c.stage.Locked?
    ensures Inv(Move(f, k, c, Read(CredentialRef(c.id, generation), secret)))
  {
    StageKeeps(f, k, c, Read(CredentialRef(c.id, generation), secret));
  }

  lemma ReplaceKeeps(f: Fence, k: CallId, c: Call, generation: nat)
    requires Inv(f) && k in f.calls && f.calls[k] == c && c.stage.Exchanged? && generation > c.stage.ref.generation
    ensures Inv(Move(f, k, c, Replaced(c.stage.ref, CredentialRef(c.id, generation), c.stage.usable)))
  {
    assert StageInv(f, c);
    StageKeeps(f, k, c, Replaced(c.stage.ref, CredentialRef(c.id, generation), c.stage.usable));
  }

  lemma ActKeeps(f: Fence, k: CallId, c: Call, ev: Event)
    requires Inv(f) && k in f.calls && f.calls[k] == c
    ensures Inv(Act(f, k, c, ev))
  {
    assert StageInv(f, c);
    hide Inv, StageInv, InspectMarker, Check, TakeWatermark, T.AdvanceCredential, Verdict, Codex.NeedsRefresh;
    match ev
    case Acquire(_) => if c.stage.Waiting? && c.id !in f.holder { AcquireKeeps(f, k, c); }
    case Latest(_, generation, secret) =>
      if c.stage.Locked? { ReadKeeps(f, k, c, generation, secret); }
    case Watermark(_, reply) => if c.stage.Read? || c.stage.Replaced? { WatermarkKeeps(f, k, c, reply); }
    case Inspect(_) => if c.stage.Floored? { InspectKeeps(f, k, c); }
    case Create(_) => if c.stage.Clear? { MarkerKeeps(f, k, c, ev); }
    case Write(_) => if c.stage.Created? { MarkerKeeps(f, k, c, ev); }
    case Sync(_) => if c.stage.Written? { MarkerKeeps(f, k, c, ev); }
    case Remove(_) => if c.stage.Settled? { MarkerKeeps(f, k, c, ev); }
    case SyncRemoval(_) => if c.stage.Removed? { SyncRemovalKeeps(f, k, c); }
    case Exchange(_) => if c.stage.Fenced? { ExchangeKeeps(f, k, c); }
    case Receive(_, next) => if c.stage.Issued? { CheckKeeps(f, k, c, next); }
    case Replace(_, generation) =>
      if c.stage.Exchanged? && generation > c.stage.ref.generation { ReplaceKeeps(f, k, c, generation); }
    case Fail(_) => if c.stage.Holds() { EndKeeps(f, k, c, Err(NewError(ErrorCode.CredentialUnavailable))); }
    case _ =>
  }

  lemma BeginKeeps(f: Fence, k: CallId, c: Call)
    requires Inv(f) && k !in f.calls && c.stage.Waiting?
    ensures Inv(f.(calls := f.calls[k := c]))
  {
    var g := f.(calls := f.calls[k := c]);
    forall j | j in g.calls
      ensures StageInv(g, g.calls[j])
    {
      assert j != k ==> StageInv(f, f.calls[j]);
    }
    assert forall i :: 0 <= i < |f.issued| ==> Behind(f, f.issued[i]) && (Behind(g, f.issued[i]) <==> Behind(f, f.issued[i]));
  }

  lemma StepKeeps(f: Fence, ev: Event)
    requires Inv(f)
    ensures Inv(Step(f, ev))
  {
    match ev
    case Begin(k, id, product, expected, now, force) =>
      if k !in f.calls { BeginKeeps(f, k, Call(id, product, expected, now, force, Waiting)); }
    case Ledger(op, clock) =>
      Runs.AdministerKeepsRows(f.rows, op, clock);
      RowsKeep(f, System.Administer(f.rows, op, clock));
    case Crash(kept) => CrashKeeps(f, kept);
    case _ => if ev.k in f.calls { ActKeeps(f, ev.k, f.calls[ev.k], ev); }
  }

  lemma {:induction false} AlwaysFenced(events: seq<Event>)
    ensures Inv(Run(events))
  {
    if events != [] {
      AlwaysFenced(events[..|events| - 1]);
      StepKeeps(Run(events[..|events| - 1]), events[|events| - 1]);
    }
  }

  // ------------------------------------------------------------------------- promises

  /** One exchange per credential and generation, over every run. */
  lemma RefreshOncePerGeneration(events: seq<Event>, i: nat, j: nat)
    requires i < j < |Run(events).issued|
    ensures var issued := Run(events).issued;
      issued[i].id == issued[j].id ==> issued[i].generation != issued[j].generation
  {
    AlwaysFenced(events);
    assert Run(events).issued[i] != Run(events).issued[j];
  }

  lemma ActMoves(f: Fence, k: CallId, c: Call, ev: Event)
    requires k in f.calls && f.calls[k] == c
    ensures Moved(f, Act(f, k, c, ev), k, c)
  {
    hide InspectMarker, Check, TakeWatermark;
    assert f.calls == f.calls[k := c];
  }

  lemma OthersWait(f: Fence, ev: Event, k: CallId)
    requires k in f.calls && k in Step(f, ev).calls && Step(f, ev).calls[k] != f.calls[k]
    ensures !ev.Begin? && !ev.Ledger? && !ev.Crash? && ev.k == k
  {
    if !ev.Begin? && !ev.Ledger? && !ev.Crash? && ev.k in f.calls {
      ActMoves(f, ev.k, f.calls[ev.k], ev);
      hide Act;
    }
  }

  lemma EndsUnmarked(f: Fence, k: CallId, c: Call, ev: Event)
    requires StageInv(f, c) && k in f.calls && f.calls[k] == c && !c.stage.Finished?
    requires var d := Act(f, k, c, ev).calls[k];
      c.product == CodexSubscription && d.stage.Finished? && d.stage.result.Ok?
    ensures c.id !in Act(f, k, c, ev).visible
  {
    hide InspectMarker, Check, TakeWatermark;
  }

  /** While a marker exists no Codex credential resolves: a call that ends well leaves none. */
  lemma MarkerFences(events: seq<Event>, ev: Event, k: CallId)
    requires k in Run(events).calls && !Run(events).calls[k].stage.Finished?
    requires var g := Run(events + [ev]);
      k in g.calls && g.calls[k].product == CodexSubscription && g.calls[k].stage.Finished? && g.calls[k].stage.result.Ok?
    ensures var g := Run(events + [ev]); g.calls[k].id !in g.visible
  {
    assert (events + [ev])[..|events + [ev]| - 1] == events;
    AlwaysFenced(events);
    var f := Run(events);
    assert StageInv(f, f.calls[k]);
    OthersWait(f, ev, k);
    ActMoves(f, k, f.calls[k], ev);
    EndsUnmarked(f, k, f.calls[k], ev);
  }

  lemma EndsMarked(f: Fence, k: CallId, c: Call, ev: Event)
    requires StageInv(f, c) && k in f.calls && f.calls[k] == c && c.stage.Ambiguous()
    requires Act(f, k, c, ev).calls[k].stage.Finished?
    ensures Act(f, k, c, ev).calls[k].stage.result.Err? && Marked(Act(f, k, c, ev), c.id)
  {
  }

  /** Whatever goes wrong once the exchange may have happened, the marker stays on disk. */
  lemma FailureLeavesTheMarker(events: seq<Event>, ev: Event, k: CallId)
    requires k in Run(events).calls && Run(events).calls[k].stage.Ambiguous()
    requires var g := Run(events + [ev]); k in g.calls && g.calls[k].stage.Finished?
    ensures var g := Run(events + [ev]); g.calls[k].stage.result.Err? && Marked(g, g.calls[k].id)
  {
    assert (events + [ev])[..|events + [ev]| - 1] == events;
    AlwaysFenced(events);
    var f := Run(events);
    assert StageInv(f, f.calls[k]);
    OthersWait(f, ev, k);
    ActMoves(f, k, f.calls[k], ev);
    EndsMarked(f, k, f.calls[k], ev);
  }
}
