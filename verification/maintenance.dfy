/** One credential resolution as it executes: lock, vault, watermark, marker, exchange,
    write-back, watermark, marker. Each resolution is a run of the fence. */
module Maintenance {
  import opened Domain
  import opened Codex
  import opened Refresh
  import opened Ledger
  import T = Tables
  import System
  import V = Verdicts

  /** How the awaited operations answer, in the order they are reached. */
  datatype World = World(
    latest: Option<(nat, Secret)>,   // the vault's current generation and value
    first: System.Reply,             // the ledger takes the generation
    inspected: bool,                 // the marker file could be looked at
    marked: nat,                     // how many of create, write and sync succeed
    exchanged: Option<Secret>,
    replaced: Option<nat>,           // the generation the vault reports after the write-back
    second: System.Reply,
    removed: nat)                    // how many of remove and sync succeed
  {
    /** A write-back that succeeds reports a newer generation than the one it replaced. */
    predicate Fair() {
      latest.Some? && replaced.Some? ==> latest.value.0 < replaced.value
    }
  }

  const UNAVAILABLE: Result<CredentialRef> := Err(NewError(ErrorCode.CredentialUnavailable))

  // ----------------------------------------------------------------- what is answered

  function LoweredAs(world: World, updated: CredentialRef): Result<CredentialRef> {
    if world.removed >= 2 then Ok(updated) else UNAVAILABLE
  }

  function SettledAs(world: World, updated: CredentialRef, usable: bool): Result<CredentialRef> {
    if !world.second.Delivered? then Err(NewError(StorageUnavailable))
    else if !usable then Unresolved()
    else LoweredAs(world, updated)
  }

  function WrittenAs(world: World, c: Call, usable: bool): Result<CredentialRef> {
    if world.replaced.None? then UNAVAILABLE else SettledAs(world, CredentialRef(c.id, world.replaced.value), usable)
  }

  function ExchangedAs(world: World, c: Call, auth: Auth): Result<CredentialRef> {
    if world.exchanged.None? || world.exchanged.value.auth.None? then UNAVAILABLE
    else
      var next := world.exchanged.value.auth.value;
      if Identity(next) != Identity(auth) then Err(NewError(ErrorCode.ReauthenticationRequired))
      else match NeedsRefresh(next, c.now, SKEW)
        case Err(e) => Err(e)
        case Ok(stale) => WrittenAs(world, c, !stale)
  }

  function RefreshedAs(world: World, c: Call, auth: Auth): Result<CredentialRef> {
    if world.marked < 3 then UNAVAILABLE else ExchangedAs(world, c, auth)
  }

  /** The stored bundle is one to be refreshed. */
  predicate Wanted(c: Call, auth: Auth) { c.force || NeedsRefresh(auth, c.now, SKEW) == Ok(true) }

  predicate Matches(c: Call, secret: Secret) {
    c.product == CodexSubscription && secret.auth.Some? && c.expected == Some(secret.auth.value.account)
  }

  function JudgedAs(marker: Option<Marker>, c: Call, ref: CredentialRef, secret: Secret, world: World): Result<CredentialRef> {
    if c.product != CodexSubscription then
      if c.force then Err(NewError(ErrorCode.Unsupported)) else if secret.empty then UNAVAILABLE else Ok(ref)
    else if secret.auth.None? then UNAVAILABLE
    else if !Matches(c, secret) then Err(NewError(ErrorCode.ReauthenticationRequired))
    else if !world.inspected then UNAVAILABLE
    else if marker.Some? then if marker.value.Torn? then UNAVAILABLE else Unresolved()
    else if Wanted(c, secret.auth.value) then RefreshedAs(world, c, secret.auth.value)
    else if c.now < 0 then Err(NewError(InvalidInput))
    else Ok(ref)
  }

  predicate Exchanges(marker: Option<Marker>, c: Call, secret: Secret, world: World) {
    Matches(c, secret) && world.inspected && marker.None? && Wanted(c, secret.auth.value) && world.marked >= 3
  }

  function MarkerOf(markers: map<CredentialId, Marker>, id: CredentialId): Option<Marker> {
    if id in markers then Some(markers[id]) else None
  }

  // ------------------------------------------------------------- the same, said outright

  /** Neither the generation nor a later one is older than any on record. */
  ghost predicate AdmitsFrom(rows: T.Rows, ref: CredentialRef) {
    forall later: nat :: ref.generation <= later ==> V.Newest(rows, CredentialRef(ref.id, later))
  }

  /** The vault answered, and the ledger took the generation it answered with. */
  predicate Taken(rows: T.Rows, c: Call, world: World) {
    world.latest.Some? && world.first.Delivered? && V.Newest(rows, CredentialRef(c.id, world.latest.value.0))
  }

  /** The bundle outlives the refresh window that starts now. */
  predicate StaysFresh(auth: Auth, now: Timestamp) { 0 <= now && Outlives(auth, now, 300_000) }

  /** The stored bundle is the expected account's, and no marker stands in the way. */
  predicate Clears(marked: bool, c: Call, world: World)
    requires world.latest.Some?
  {
    var secret := world.latest.value.1;
    secret.auth.Some? && c.expected == Some(secret.auth.value.account) && world.inspected && !marked
  }

  /** The refreshed bundle is the same identity's and fresh, is written back and recorded, and its
      marker is gone for good. */
  predicate Completes(c: Call, auth: Auth, world: World) {
    && world.marked >= 3 && world.exchanged.Some? && world.exchanged.value.auth.Some?
    && world.exchanged.value.auth.value.account == auth.account && world.exchanged.value.auth.value.subject == auth.subject
    && StaysFresh(world.exchanged.value.auth.value, c.now)
    && world.replaced.Some? && world.second.Delivered? && world.removed >= 2
  }

  /** What a resolution that took its generation answers, by what it is asked and what it is told. A
      key that is no bundle is served if it is there and no refresh is forced. A bundle is served as
      it is exactly when it clears and outlives the window; it is exchanged, once, exactly when it
      clears and does not, or a refresh is forced, and its marker is up; and what comes back is
      served exactly when everything after the exchange went well. */
  ghost predicate Answers(marker: Option<Marker>, c: Call, world: World, r: Result<CredentialRef>, exchanged: bool)
    requires world.latest.Some?
  {
    var (generation, secret) := world.latest.value;
    if c.product != CodexSubscription then
      && !exchanged && (r.Ok? <==> !c.force && !secret.empty) && (r.Ok? ==> r.value == CredentialRef(c.id, generation))
      && (r.Err? ==> r.error.code == if c.force then Unsupported else ErrorCode.CredentialUnavailable)
    else if !Clears(marker.Some?, c, world) then
      && r.Err? && !exchanged
      && r.error.code ==
          if secret.auth.None? then ErrorCode.CredentialUnavailable
          else if c.expected != Some(secret.auth.value.account) then ErrorCode.ReauthenticationRequired
          else if !world.inspected || marker.value.Torn? then ErrorCode.CredentialUnavailable
          else ErrorCode.ReauthenticationRequired
    else if !c.force && StaysFresh(secret.auth.value, c.now) then r == Ok(CredentialRef(c.id, generation)) && !exchanged
    else if !c.force && c.now < 0 then r.Err? && !exchanged
    else
      && (exchanged <==> world.marked >= 3)
      && (r.Ok? <==> Completes(c, secret.auth.value, world))
      && (r.Ok? ==> r.value == CredentialRef(c.id, world.replaced.value))
  }

  lemma FreshnessMeans(auth: Auth, now: Timestamp)
    ensures NeedsRefresh(auth, now, SKEW) == Ok(false) <==> StaysFresh(auth, now)
    ensures NeedsRefresh(auth, now, SKEW).Err? <==> now < 0
    ensures NeedsRefresh(auth, now, SKEW).Err? ==> NeedsRefresh(auth, now, SKEW).error == NewError(InvalidInput)
  {
  }

  lemma RefreshedMeans(c: Call, world: World, auth: Auth)
    ensures var r := RefreshedAs(world, c, auth);
      (r.Ok? <==> Completes(c, auth, world)) && (r.Ok? ==> r.value == CredentialRef(c.id, world.replaced.value))
  {
    if world.exchanged.Some? && world.exchanged.value.auth.Some? { FreshnessMeans(world.exchanged.value.auth.value, c.now); }
    hide NeedsRefresh, StaysFresh;
  }

  lemma JudgedMeans(marker: Option<Marker>, c: Call, world: World)
    requires world.latest.Some?
    ensures var (generation, secret) := world.latest.value;
      Answers(marker, c, world, JudgedAs(marker, c, CredentialRef(c.id, generation), secret, world),
              Exchanges(marker, c, secret, world))
  {
    var secret := world.latest.value.1;
    if secret.auth.Some? {
      FreshnessMeans(secret.auth.value, c.now);
      RefreshedMeans(c, world, secret.auth.value);
    }
    hide NeedsRefresh, StaysFresh, RefreshedAs, Completes;
  }

  lemma AdmitsMeans(rows: T.Rows, ref: CredentialRef)
    ensures T.AdvanceCredential(rows, ref).result.Ok? <==> V.Newest(rows, ref)
    ensures V.Newest(rows, ref) ==> AdmitsFrom(T.AdvanceCredential(rows, ref).rows, ref)
  {
  }

  /** The call's events so far, told of the answers it was given, and the fence they lead to. */
  datatype Trace = Trace(world: World, k: CallId, start: Fence, events: seq<Event>, end: Fence)
  {
    ghost predicate Faithful() {
      end == Replay(start, events) && forall i :: 0 <= i < |events| ==> Told(i, events[i])
    }

    /** The event is the call's own, and carries the answer given; the fourth is the first watermark. */
    ghost predicate Told(i: nat, ev: Event) {
      && !ev.Ledger? && !ev.Crash? && ev.k == k
      && (ev.Latest? ==> world.latest == Some((ev.generation, ev.secret)))
      && (ev.Receive? ==> world.exchanged == Some(ev.next))
      && (ev.Replace? ==> world.replaced == Some(ev.generation))
      && (ev.Watermark? ==> ev.reply == if i <= 3 then world.first else world.second)
    }

    ghost function Then(ev: Event): Trace { this.(events := events + [ev], end := Step(end, ev)) }

    /** The same call, further on. */
    ghost predicate Continues(t: Trace) {
      world == t.world && k == t.k && start == t.start && |t.events| <= |events|
    }
  }

  /** One more event. */
  ghost method Next(t: Trace, ev: Event) returns (u: Trace)
    requires t.Faithful() && t.Told(|t.events|, ev)
    ensures u == t.Then(ev) && u.Faithful() && u.Continues(t)
  {
    assert (t.events + [ev])[..|t.events|] == t.events;
    u := t.Then(ev);
  }

  lemma Fails(f: Fence, k: CallId, c: Call, stage: Stage)
    requires At(f, k, c, stage)
    ensures Step(f, Fail(k)) == End(f, k, c, UNAVAILABLE)
  {
  }

  lemma LatestSteps(f: Fence, k: CallId, c: Call, generation: nat, secret: Secret, reply: System.Reply)
    requires At(f, k, c, Stage.Locked)
    ensures var ref := CredentialRef(c.id, generation); var read := Step(f, Latest(k, generation, secret));
      var o := T.AdvanceCredential(f.rows, ref); var after := f.(rows := System.Applied(f.rows, o, reply));
      && read == Move(f, k, c, Read(ref, secret))
      && Step(read, Watermark(k, reply)) == match System.Answer(o, reply)
          case Err(e) => End(after, k, c, Err(e))
          case Ok(_) => Move(after, k, c, Floored(ref, secret))
  {
    hide T.AdvanceCredential;
  }

  lemma InspectSteps(f: Fence, k: CallId, c: Call, ref: CredentialRef, secret: Secret)
    requires At(f, k, c, Floored(ref, secret))
    ensures var g := Step(f, Inspect(k)); var verdict := Verdict(c, ref, secret);
      if verdict.Some? then g == End(f, k, c, verdict.value)
      else if c.id in f.visible then
        g == End(f, k, c, if f.visible[c.id].Torn? then UNAVAILABLE else Unresolved())
      else if c.force then g == Move(f, k, c, Clear(ref, secret.auth.value))
      else match NeedsRefresh(secret.auth.value, c.now, SKEW)
        case Err(e) => g == End(f, k, c, Err(e))
        case Ok(stale) => g == if stale then Move(f, k, c, Clear(ref, secret.auth.value)) else End(f, k, c, Ok(ref))
  {
  }

  lemma MarkerSteps(f: Fence, k: CallId, c: Call, ref: CredentialRef, auth: Auth)
    ensures At(f, k, c, Clear(ref, auth)) && c.id !in f.visible ==>
      Step(f, Create(k)) == Move(f, k, c, Created(ref, auth)).(visible := f.visible[c.id := Torn])
    ensures At(f, k, c, Created(ref, auth)) ==>
      Step(f, Write(k)) == Move(f, k, c, Written(ref, auth))
        .(visible := f.visible[c.id := Pending(ref.generation, Identity(auth), auth.access)])
    ensures At(f, k, c, Written(ref, auth)) && c.id in f.visible ==>
      Step(f, Sync(k)) == Move(f, k, c, Fenced(ref, auth)).(durable := f.durable[c.id := f.visible[c.id]])
    ensures At(f, k, c, Fenced(ref, auth)) ==>
      Step(f, Exchange(k)) == Move(f, k, c, Issued(ref, auth)).(issued := f.issued + [ref])
  {
  }

  lemma ReceiveSteps(f: Fence, k: CallId, c: Call, ref: CredentialRef, auth: Auth, next: Secret)
    requires At(f, k, c, Issued(ref, auth))
    ensures var g := Step(f, Receive(k, next));
      if next.auth.None? then g == End(f, k, c, UNAVAILABLE)
      else if Identity(next.auth.value) != Identity(auth) then
        g == End(f, k, c, Err(NewError(ErrorCode.ReauthenticationRequired)))
      else match NeedsRefresh(next.auth.value, c.now, SKEW)
        case Err(e) => g == End(f, k, c, Err(e))
        case Ok(stale) => g == Move(f, k, c, Exchanged(ref, !stale))
  {
  }

  lemma ReplaceSteps(f: Fence, k: CallId, c: Call, ref: CredentialRef, usable: bool, generation: nat)
    requires At(f, k, c, Exchanged(ref, usable)) && generation > ref.generation
    ensures Step(f, Replace(k, generation)) == Move(f, k, c, Replaced(ref, CredentialRef(c.id, generation), usable))
  {
  }

  lemma WatermarkSteps(f: Fence, k: CallId, c: Call, ref: CredentialRef, updated: CredentialRef, usable: bool,
      reply: System.Reply)
    requires At(f, k, c, Replaced(ref, updated, usable))
    ensures var o := T.AdvanceCredential(f.rows, updated); var after := f.(rows := System.Applied(f.rows, o, reply));
      Step(f, Watermark(k, reply)) == match System.Answer(o, reply)
        case Err(e) => End(after, k, c, Err(e))
        case Ok(_) => if usable then Move(after, k, c, Stage.Settled(updated)) else End(after, k, c, Unresolved())
  {
  }

  lemma RemovalSteps(f: Fence, k: CallId, c: Call, updated: CredentialRef)
    ensures At(f, k, c, Stage.Settled(updated)) ==>
      Step(f, Remove(k)) == Move(f, k, c, Removed(updated)).(visible := f.visible - {c.id})
    ensures At(f, k, c, Removed(updated)) ==>
      Step(f, SyncRemoval(k)) == End(f.(durable := f.durable - {c.id}), k, c, Ok(updated))
  {
  }

  /** The fence as the marker goes up: created, written, synced. */
  function Marking(f: Fence, k: CallId, c: Call, ref: CredentialRef, auth: Auth, steps: nat): Fence {
    var marker := Pending(ref.generation, Identity(auth), auth.access);
    if steps == 0 then f
    else if steps == 1 then Move(f, k, c, Created(ref, auth)).(visible := f.visible[c.id := Torn])
    else if steps == 2 then Move(f, k, c, Written(ref, auth)).(visible := f.visible[c.id := marker])
    else Move(f, k, c, Fenced(ref, auth)).(visible := f.visible[c.id := marker], durable := f.durable[c.id := marker])
  }

  function Reached(marked: nat): nat { if marked < 3 then marked else 3 }

  function MarkingStage(ref: CredentialRef, auth: Auth, steps: nat): Stage {
    if steps == 0 then Clear(ref, auth) else if steps == 1 then Created(ref, auth)
    else if steps == 2 then Written(ref, auth) else Fenced(ref, auth)
  }

  function MarkingEvent(k: CallId, steps: nat): Event {
    if steps == 0 then Create(k) else if steps == 1 then Write(k) else Sync(k)
  }

  lemma MarkingShape(f: Fence, k: CallId, c: Call, ref: CredentialRef, auth: Auth, steps: nat)
    requires At(f, k, c, Clear(ref, auth))
    ensures var g := Marking(f, k, c, ref, auth, steps); var marker := Pending(ref.generation, Identity(auth), auth.access);
      && At(g, k, c, MarkingStage(ref, auth, steps)) && g == Move(f, k, c, MarkingStage(ref, auth, steps)).(
           visible := if steps == 0 then f.visible else f.visible[c.id := if steps == 1 then Torn else marker],
           durable := if steps < 3 then f.durable else f.durable[c.id := marker])
  {
    assert f.calls == f.calls[k := c.(stage := Clear(ref, auth))];
  }

  lemma MarkingStep(f: Fence, k: CallId, c: Call, ref: CredentialRef, auth: Auth, steps: nat)
    requires At(f, k, c, Clear(ref, auth)) && c.id !in f.visible && steps < 3
    ensures Step(Marking(f, k, c, ref, auth, steps), MarkingEvent(k, steps)) == Marking(f, k, c, ref, auth, steps + 1)
  {
    MarkerSteps(Marking(f, k, c, ref, auth, steps), k, c, ref, auth);
    hide Step;
  }

  ghost method Raised(k: CallId, c: Call, ref: CredentialRef, auth: Auth, steps: nat, before: Trace)
    returns (t: Trace)
    requires before.k == k && before.Faithful() && At(before.end, k, c, Clear(ref, auth)) && c.id !in before.end.visible && steps <= 3
    ensures t.Continues(before) && t.Faithful()
    ensures t.end == Marking(before.end, k, c, ref, auth, steps)
  {
    if steps == 0 { return before; }
    t := Raised(k, c, ref, auth, steps - 1, before);
    MarkingStep(before.end, k, c, ref, auth, steps - 1);
    hide *;
    t := Next(t, MarkingEvent(k, steps - 1));
  }

  /** The fence once the call has its lock. */
  function Begun(f: Fence, k: CallId, c: Call): Fence {
    f.(calls := f.calls[k := c.(stage := Stage.Locked)], holder := f.holder[c.id := k])
  }

  lemma BeginSteps(f: Fence, k: CallId, c: Call)
    requires c.stage.Waiting? && k !in f.calls && c.id !in f.holder
    ensures Step(Step(f, Begin(k, c.id, c.product, c.expected, c.now, c.force)), Acquire(k)) == Begun(f, k, c)
  {
    var waiting := Step(f, Begin(k, c.id, c.product, c.expected, c.now, c.force));
    assert waiting == f.(calls := f.calls[k := c]);
    assert f.calls[k := c][k := c.(stage := Stage.Locked)] == f.calls[k := c.(stage := Stage.Locked)];
  }

  ghost method Untraced(world: World, k: CallId, f: Fence) returns (t: Trace)
    ensures t == Trace(world, k, f, [], f) && t.Faithful()
  {
    t := Trace(world, k, f, [], f);
  }

  ghost method Entered(world: World, f: Fence, k: CallId, c: Call) returns (t: Trace)
    requires c.stage.Waiting? && k !in f.calls && c.id !in f.holder
    ensures t.world == world && t.k == k && t.start == f && |t.events| == 2
    ensures t.Faithful() && t.end == Begun(f, k, c) && At(t.end, k, c, Stage.Locked)
    ensures t.end.rows == f.rows && t.end.visible == f.visible && t.end.durable == f.durable && t.end.issued == f.issued
  {
    BeginSteps(f, k, c);
    hide Step, Replay;
    t := Untraced(world, k, f);
    t := Next(t, Begin(k, c.id, c.product, c.expected, c.now, c.force));
    t := Next(t, Acquire(k));
  }

  lemma BeginEnds(f: Fence, g: Fence, k: CallId, c: Call, r: Result<CredentialRef>)
    requires c.id !in f.holder && Returned(Begun(f, k, c), g, k, c, r) && Effects(Begun(f, k, c), g, c, r)
    ensures g.calls == f.calls[k := c.(stage := Finished(r))] && g.holder == f.holder && Effects(f, g, c, r)
  {
    assert f.holder[c.id := k] - {c.id} == f.holder;
  }

  /** A resolution that ends before any marker is raised. */
  lemma Quiet(f: Fence, k: CallId, c: Call, stage: Stage, r: Result<CredentialRef>)
    requires At(f, k, c, stage) && (c.product == CodexSubscription && r.Ok? ==> c.id !in f.visible)
    ensures var g := End(f, k, c, r); Returned(f, g, k, c, r) && Effects(f, g, c, r)
    ensures var g := End(f, k, c, r); g.rows == f.rows && g.visible == f.visible && g.durable == f.durable && g.issued == f.issued
  {
  }

  /** One that raised it. */
  lemma Loud(f: Fence, g: Fence, k: CallId, c: Call, ref: CredentialRef, auth: Auth, r: Result<CredentialRef>)
    requires c.id in f.holder && k in f.calls && c.id !in f.visible && ref.id == c.id && c.product == CodexSubscription
    requires Returned(Move(f, k, c, Clear(ref, auth)), g, k, c, r)
    requires if g.issued == f.issued then r.Err? else Confirms(f.issued + [ref], g, c, r)
    ensures Returned(f, g, k, c, r) && Effects(f, g, c, r)
  {
    assert (f.issued + [ref])[..|f.issued|] == f.issued;
  }

  class CredentialMaintenance {
    const ledger: SqliteLedger
    const managed: set<CredentialId>
    var markers: map<CredentialId, Marker>        // files as the process sees them
    var synced: map<CredentialId, Marker>         // files as a crash would leave them
    ghost var calls: map<CallId, Call>
    ghost var holder: map<CredentialId, CallId>
    ghost var issued: seq<CredentialRef>

    ghost function State(): Fence
      reads this, ledger
    {
      Fence(ledger.Rows(), calls, holder, markers, synced, issued)
    }

    constructor (ledger: SqliteLedger, managed: set<CredentialId>)
      ensures this.ledger == ledger && this.managed == managed
      ensures State() == START.(rows := ledger.Rows())
    {
      this.ledger, this.managed := ledger, managed;
      markers, synced, calls, holder, issued := map[], map[], map[], map[], [];
    }

    /** The real fields are the fence's. */
    ghost predicate Shows(f: Fence)
      reads this, ledger
    {
      ledger.Rows() == f.rows && markers == f.visible && synced == f.durable
    }

    /** A ledger write that may be refused, or committed without the caller learning of it. */
    method TakeGeneration(ref: CredentialRef, reply: System.Reply) returns (r: Result<()>)
      modifies ledger`watermarks
      ensures var o := T.AdvanceCredential(old(ledger.Rows()), ref);
        ledger.Rows() == System.Applied(old(ledger.Rows()), o, reply) && r == System.Answer(o, reply)
      ensures r.Ok? <==> reply.Delivered? && V.Newest(old(ledger.Rows()), ref)
      ensures !reply.Delivered? ==> r == Err(NewError(StorageUnavailable))
      ensures r.Ok? ==> AdmitsFrom(ledger.Rows(), ref)
    {
      AdmitsMeans(ledger.Rows(), ref);
      hide V.Newest, AdmitsFrom, T.AdvanceCredential;
      if reply.Refused? { return Err(NewError(StorageUnavailable)); }
      r := ledger.AdvanceCredential(ref);
      if reply.Lost? { return Err(NewError(StorageUnavailable)); }
    }

    /** The object only ever stands where some run of the fence leads, so every promise about
        runs is a promise about it. */
    method Resolve(ghost k: CallId, c: Call, world: World, ghost history: seq<Event>)
      returns (r: Result<CredentialRef>, ghost after: seq<Event>)
      requires c.stage.Waiting? && k !in calls && c.id !in holder && world.Fair()
      requires State() == Run(history)
      modifies this, ledger`watermarks
      ensures State() == Run(after) && Inv(State())
      ensures history <= after && holder == old(holder)
    {
      ghost var t;
      r, t := ResolveInner(k, c, world);
      after := history + t.events;
      ReplaysJoin(START, history, t.events);
      AlwaysFenced(after);
    }

    method ResolveInner(ghost k: CallId, c: Call, world: World) returns (r: Result<CredentialRef>, ghost t: Trace)
      requires c.stage.Waiting? && k !in calls && c.id !in holder && world.Fair()
      modifies this, ledger`watermarks
      ensures t.world == world && t.k == k && t.start == old(State()) && t.end == State() && t.Faithful()
      ensures holder == old(holder)
      ensures c.id in managed ==> calls == old(calls)[k := c.(stage := Finished(r))]
      ensures c.id !in managed ==> r == UNAVAILABLE && t.events == []
      ensures c.id in managed ==> Effects(old(State()), State(), c, r)
      ensures c.id in managed && !Taken(old(ledger.Rows()), c, world) ==> r.Err? && issued == old(issued)
      ensures c.id in managed && Taken(old(ledger.Rows()), c, world) ==>
        && Answers(MarkerOf(old(markers), c.id), c, world, r, issued != old(issued))
        && (issued == old(issued) || issued == old(issued) + [CredentialRef(c.id, world.latest.value.0)])
    {
      hide Step, Effects, Replay, At, Returned, Begun, Answers, Taken;
      if c.id !in managed {
        t := Untraced(world, k, State());
        return UNAVAILABLE, t;
      }
      ghost var start := State();
      t := Entered(world, start, k, c);
      r, t := Locked(k, c, world, t);
      BeginEnds(start, t.end, k, c, r);
      Follow(t.end);
    }

    /** The fence's own bookkeeping follows what was traced. */
    ghost method Follow(f: Fence)
      requires Shows(f)
      modifies this`calls, this`holder, this`issued
      ensures State() == f && calls == f.calls && holder == f.holder && issued == f.issued
    {
      calls, holder, issued := f.calls, f.holder, f.issued;
    }

    /** Created exclusively, written, then synced with its directory; a failure leaves what is done. */
    method WriteMarker(id: CredentialId, marker: Marker, steps: nat) returns (ok: bool)
      modifies this`markers, this`synced
      ensures ok <==> steps >= 3 && id !in old(markers)
      ensures markers == if steps == 0 || id in old(markers) then old(markers)
                         else old(markers)[id := if steps == 1 then Torn else marker]
      ensures synced == if ok then old(synced)[id := marker] else old(synced)
    {
      if steps == 0 || id in markers { return false; }
      markers := markers[id := Torn];
      if steps == 1 { return false; }
      markers := markers[id := marker];
      if steps == 2 { return false; }
      synced := synced[id := marker];
      ok := true;
    }

    method RemoveMarker(id: CredentialId, steps: nat) returns (ok: bool)
      modifies this`markers, this`synced
      ensures ok <==> steps >= 2
      ensures markers == if steps == 0 then old(markers) else old(markers) - {id}
      ensures synced == if ok then old(synced) - {id} else old(synced)
    {
      if steps == 0 { return false; }
      markers := markers - {id};
      if steps == 1 { return false; }
      synced := synced - {id};
      ok := true;
    }

    /** What runs under the credential's lock. */
    method Locked(ghost k: CallId, c: Call, world: World, ghost before: Trace)
      returns (r: Result<CredentialRef>, ghost t: Trace)
      requires before.world == world && before.k == k && |before.events| == 2
      requires world.Fair() && before.Faithful() && Shows(before.end) && At(before.end, k, c, Stage.Locked)
      modifies this`markers, this`synced, ledger`watermarks
      ensures t.Continues(before) && t.Faithful() && Shows(t.end) && Returned(before.end, t.end, k, c, r)
      ensures Effects(before.end, t.end, c, r)
      ensures !Taken(before.end.rows, c, world) ==> r.Err? && t.end.issued == before.end.issued
      ensures Taken(before.end.rows, c, world) ==>
        && Answers(MarkerOf(before.end.visible, c.id), c, world, r, t.end.issued != before.end.issued)
        && (t.end.issued == before.end.issued || t.end.issued == before.end.issued + [CredentialRef(c.id, world.latest.value.0)])
    {
      hide Trace.Faithful, Replay, Step, T.AdvanceCredential, Answers, JudgedAs, Exchanges, V.Newest, AdmitsFrom;
      if world.latest.None? {
        Fails(before.end, k, c, Stage.Locked);
        t := Next(before, Fail(k));
        return UNAVAILABLE, t;
      }
      var (generation, secret) := world.latest.value;
      var ref := CredentialRef(c.id, generation);
      LatestSteps(before.end, k, c, generation, secret, world.first);
      t := Next(before, Latest(k, generation, secret));
      var taken := TakeGeneration(ref, world.first);
      t := Next(t, Watermark(k, world.first));
      if taken.Err? { return Err(taken.error), t; }
      assert At(t.end, k, c, Floored(ref, secret)) && Shows(t.end);
      JudgedMeans(MarkerOf(before.end.visible, c.id), c, world);
      r, t := Judged(k, c, ref, secret, world, t);
    }

    /** The generation is accepted: is the bundle usable as it is? */
    method Judged(ghost k: CallId, c: Call, ref: CredentialRef, secret: Secret, world: World, ghost before: Trace)
      returns (r: Result<CredentialRef>, ghost t: Trace)
      requires world.replaced.Some? ==> ref.generation < world.replaced.value
      requires before.world == world && before.k == k && |before.events| > 3
      requires before.Faithful() && Shows(before.end) && At(before.end, k, c, Floored(ref, secret)) && ref.id == c.id
      requires AdmitsFrom(ledger.Rows(), ref)
      modifies this`markers, this`synced, ledger`watermarks
      ensures t.Continues(before) && t.Faithful() && Shows(t.end) && Returned(before.end, t.end, k, c, r)
      ensures Effects(before.end, t.end, c, r)
      ensures r == JudgedAs(MarkerOf(before.end.visible, c.id), c, ref, secret, world)
      ensures t.end.issued == if Exchanges(MarkerOf(before.end.visible, c.id), c, secret, world) then before.end.issued + [ref]
                              else before.end.issued
    {
      hide RefreshedAs, AdmitsFrom, Trace.Faithful, Replay, Step, End, Effects, Returned, NeedsRefresh;
      ghost var f := before.end;
      InspectSteps(f, k, c, ref, secret);
      if c.product != CodexSubscription {
        r := if c.force then Err(NewError(ErrorCode.Unsupported)) else if secret.empty then UNAVAILABLE else Ok(ref);
        Quiet(f, k, c, Floored(ref, secret), r);
        t := Next(before, Inspect(k));
        return;
      }
      if secret.auth.None? {
        Quiet(f, k, c, Floored(ref, secret), UNAVAILABLE);
        t := Next(before, Inspect(k));
        return UNAVAILABLE, t;
      }
      var auth := secret.auth.value;
      if c.expected != Some(auth.account) {
        r := Err(NewError(ErrorCode.ReauthenticationRequired));
        Quiet(f, k, c, Floored(ref, secret), r);
        t := Next(before, Inspect(k));
        return;
      }
      if !world.inspected {
        Fails(f, k, c, Floored(ref, secret));
        Quiet(f, k, c, Floored(ref, secret), UNAVAILABLE);
        t := Next(before, Fail(k));
        return UNAVAILABLE, t;
      }
      t := Next(before, Inspect(k));
      if c.id in markers {
        // A new token alone cannot prove that the write-back was checked.
        r := if markers[c.id].Torn? then UNAVAILABLE else Unresolved();
        Quiet(f, k, c, Floored(ref, secret), r);
        return;
      }
      if !c.force {
        FreshnessMeans(auth, c.now);
        var stale := NeedsRefresh(auth, c.now, SKEW);
        if stale.Err? {
          Quiet(f, k, c, Floored(ref, secret), Err(stale.error));
          return Err(stale.error), t;
        }
        if !stale.value {
          Quiet(f, k, c, Floored(ref, secret), Ok(ref));
          return Ok(ref), t;
        }
      }
      r, t := Refresh(k, c, ref, auth, world, t);
      Loud(f, t.end, k, c, ref, auth, r);
    }

    /** The fence is raised before the exchange and lowered only after a checked write-back. */
    method Refresh(ghost k: CallId, c: Call, ref: CredentialRef, auth: Auth, world: World, ghost before: Trace)
      returns (r: Result<CredentialRef>, ghost t: Trace)
      requires world.replaced.Some? ==> ref.generation < world.replaced.value
      requires before.world == world && before.k == k && |before.events| > 3
      requires before.Faithful() && Shows(before.end) && At(before.end, k, c, Clear(ref, auth)) && c.id !in markers
      requires ref.id == c.id && AdmitsFrom(ledger.Rows(), ref)
      modifies this`markers, this`synced, ledger`watermarks
      ensures t.Continues(before) && t.Faithful() && Shows(t.end) && Returned(before.end, t.end, k, c, r)
      ensures if t.end.issued == before.end.issued then r.Err? else Confirms(before.end.issued + [ref], t.end, c, r)
      ensures r == RefreshedAs(world, c, auth)
      ensures t.end.issued == if world.marked >= 3 then before.end.issued + [ref] else before.end.issued
    {
      hide Trace.Faithful, Replay, Step, MarkingStage;
      ghost var stage := MarkingStage(ref, auth, Reached(world.marked));
      var fenced;
      fenced, t := Raise(k, c, ref, auth, world, before);
      if !fenced {
        Fails(t.end, k, c, stage);
        t := Next(t, Fail(k));
        return UNAVAILABLE, t;
      }
      MarkerSteps(t.end, k, c, ref, auth);
      t := Next(t, Exchange(k));
      assert At(t.end, k, c, Issued(ref, auth)) && Shows(t.end);
      r, t := Exchanged(k, c, ref, auth, world, t);
    }

    method Raise(ghost k: CallId, c: Call, ref: CredentialRef, auth: Auth, world: World, ghost before: Trace)
      returns (fenced: bool, ghost t: Trace)
      requires before.k == k
      requires before.Faithful() && Shows(before.end) && At(before.end, k, c, Clear(ref, auth)) && c.id !in markers
      modifies this`markers, this`synced
      ensures t.Continues(before) && t.Faithful() && Shows(t.end)
      ensures var stage := MarkingStage(ref, auth, Reached(world.marked));
        && At(t.end, k, c, stage)
        && t.end == Move(before.end, k, c, stage).(visible := t.end.visible, durable := t.end.durable)
      ensures fenced <==> world.marked >= 3
      ensures fenced ==> MarkingStage(ref, auth, Reached(world.marked)) == Fenced(ref, auth) && c.id in synced
    {
      hide Trace.Faithful, Replay, Step;
      fenced := WriteMarker(c.id, Pending(ref.generation, Identity(auth), auth.access), world.marked);
      t := Raised(k, c, ref, auth, Reached(world.marked), before);
      MarkingShape(before.end, k, c, ref, auth, Reached(world.marked));
      hide Marking;
    }

    /** From here every error leaves the marker. */
    method Exchanged(ghost k: CallId, c: Call, ref: CredentialRef, auth: Auth, world: World, ghost before: Trace)
      returns (r: Result<CredentialRef>, ghost t: Trace)
      requires world.replaced.Some? ==> ref.generation < world.replaced.value
      requires before.world == world && before.k == k && |before.events| > 3
      requires before.Faithful() && Shows(before.end) && At(before.end, k, c, Issued(ref, auth))
      requires c.id in synced
      requires ref.id == c.id && AdmitsFrom(ledger.Rows(), ref)
      modifies this`markers, this`synced, ledger`watermarks
      ensures t.Continues(before) && t.Faithful() && Shows(t.end) && Returned(before.end, t.end, k, c, r)
      ensures Confirms(before.end.issued, t.end, c, r)
      ensures r == ExchangedAs(world, c, auth)
    {
      hide Trace.Faithful, Replay, Step, NeedsRefresh, Identity, T.AdvanceCredential, Effects;
      if world.exchanged.None? {
        Fails(before.end, k, c, Issued(ref, auth));
        t := Next(before, Fail(k));
        return UNAVAILABLE, t;
      }
      var next := world.exchanged.value;
      ReceiveSteps(before.end, k, c, ref, auth, next);
      t := Next(before, Receive(k, next));
      if next.auth.None? { return UNAVAILABLE, t; }
      if Identity(next.auth.value) != Identity(auth) {
        return Err(NewError(ErrorCode.ReauthenticationRequired)), t;
      }
      var stale := NeedsRefresh(next.auth.value, c.now, SKEW);
      if stale.Err? { return Err(stale.error), t; }
      r, t := WrittenBack(k, c, ref, !stale.value, world, t);
    }

    /** A rotated refresh token is preserved even if its access token is already stale. */
    method WrittenBack(ghost k: CallId, c: Call, ref: CredentialRef, usable: bool, world: World, ghost before: Trace)
      returns (r: Result<CredentialRef>, ghost t: Trace)
      requires world.replaced.Some? ==> ref.generation < world.replaced.value
      requires before.world == world && before.k == k && |before.events| > 3
      requires before.Faithful() && Shows(before.end) && At(before.end, k, c, Stage.Exchanged(ref, usable))
      requires c.id in synced
      requires ref.id == c.id && AdmitsFrom(ledger.Rows(), ref)
      modifies this`markers, this`synced, ledger`watermarks
      ensures t.Continues(before) && t.Faithful() && Shows(t.end) && Returned(before.end, t.end, k, c, r)
      ensures Confirms(before.end.issued, t.end, c, r)
      ensures r == WrittenAs(world, c, usable)
    {
      hide Trace.Faithful, Replay, Step, T.AdvanceCredential, Effects;
      if world.replaced.None? {
        Fails(before.end, k, c, Stage.Exchanged(ref, usable));
        t := Next(before, Fail(k));
        return UNAVAILABLE, t;
      }
      var updated := CredentialRef(c.id, world.replaced.value);
      ReplaceSteps(before.end, k, c, ref, usable, updated.generation);
      t := Next(before, Replace(k, updated.generation));
      assert At(t.end, k, c, Replaced(ref, updated, usable)) && Shows(t.end);
      r, t := Settled(k, c, ref, updated, usable, world, t);
    }

    method Settled(ghost k: CallId, c: Call, ref: CredentialRef, updated: CredentialRef, usable: bool, world: World,
        ghost before: Trace)
      returns (r: Result<CredentialRef>, ghost t: Trace)
      requires before.world == world && before.k == k && |before.events| > 3
      requires before.Faithful() && Shows(before.end) && At(before.end, k, c, Replaced(ref, updated, usable))
      requires c.id in synced
      requires V.Newest(ledger.Rows(), updated)
      modifies this`markers, this`synced, ledger`watermarks
      ensures t.Continues(before) && t.Faithful() && Shows(t.end) && Returned(before.end, t.end, k, c, r)
      ensures Confirms(before.end.issued, t.end, c, r)
      ensures r == SettledAs(world, updated, usable)
    {
      hide Trace.Faithful, Replay, Step, T.AdvanceCredential, Effects;
      var taken := TakeGeneration(updated, world.second);
      WatermarkSteps(before.end, k, c, ref, updated, usable, world.second);
      t := Next(before, Watermark(k, world.second));
      if taken.Err? { return Err(taken.error), t; }
      if !usable { return Unresolved(), t; }
      r, t := Lower(k, c, updated, world.removed, t);
    }

    method Lower(ghost k: CallId, c: Call, updated: CredentialRef, steps: nat, ghost before: Trace)
      returns (r: Result<CredentialRef>, ghost t: Trace)
      requires before.k == k
      requires before.Faithful() && Shows(before.end) && At(before.end, k, c, Stage.Settled(updated))
      requires c.id in synced
      modifies this`markers, this`synced
      ensures t.Continues(before) && t.Faithful() && Shows(t.end) && Returned(before.end, t.end, k, c, r)
      ensures Confirms(before.end.issued, t.end, c, r)
      ensures r == if steps >= 2 then Ok(updated) else UNAVAILABLE
    {
      hide Trace.Faithful, Replay, Step;
      var removed := RemoveMarker(c.id, steps);
      t := before;
      ghost var stage := Stage.Settled(updated);
      RemovalSteps(t.end, k, c, updated);
      if steps >= 1 {
        t := Next(t, Remove(k));
        stage := Removed(updated);
      }
      RemovalSteps(t.end, k, c, updated);
      if !removed {
        Fails(t.end, k, c, stage);
        t := Next(t, Fail(k));
        return UNAVAILABLE, t;
      }
      t := Next(t, SyncRemoval(k));
      r := Ok(updated);
    }
  }

  /** The call stands at the stage and holds its lock. */
  ghost predicate At(f: Fence, k: CallId, c: Call, stage: Stage) {
    k in f.calls && f.calls[k] == c.(stage := stage) && stage.Holds() && c.id in f.holder && f.holder[c.id] == k
  }

  /** The call ended with the result and gave its lock back; no other call was touched. */
  ghost predicate Returned(f: Fence, g: Fence, k: CallId, c: Call, r: Result<CredentialRef>) {
    g.calls == f.calls[k := c.(stage := Finished(r))] && g.holder == f.holder - {c.id}
  }

  /** Once an exchange was issued only a checked write-back takes the marker off the disk. */
  ghost predicate Confirms(issued: seq<CredentialRef>, g: Fence, c: Call, r: Result<CredentialRef>) {
    g.issued == issued && (if r.Ok? then c.id !in g.visible && c.id !in g.durable else c.id in g.durable)
  }

  /** What one resolution of a Codex credential may do to the exchanges and the markers. */
  ghost predicate Effects(f: Fence, g: Fence, c: Call, r: Result<CredentialRef>) {
    && |f.issued| <= |g.issued| <= |f.issued| + 1 && f.issued == g.issued[..|f.issued|]
    && (c.product != CodexSubscription ==> g.issued == f.issued && g.visible == f.visible)
    && (c.product == CodexSubscription && r.Ok? ==> c.id !in g.visible)
    && (c.product == CodexSubscription && c.id in f.visible ==> r.Err? && g.issued == f.issued && g.visible == f.visible)
    && (g.issued != f.issued ==> g.issued[|f.issued|].id == c.id && (r.Err? ==> c.id in g.durable))
  }
}
