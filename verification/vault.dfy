/** Credentials kept as versioned vault items: a process-local read cache that backs off
    when the vault fails, and a write-back that is read again before it is believed. */
module Vault {
  import opened Clocks
  import opened Domain
  import opened Json
  import opened VaultItem

  const BACKOFF: nat := 15 * 60 * 1000
  /** The last instant the monotonic clock can represent. */
  const LAST_INSTANT: nat := 0x7FFF_FFFF_FFFF_FFFF

  function Later(now: nat, span: nat): Option<nat> {
    if now + span <= LAST_INSTANT then Some(now + span) else None
  }

  type Address = (string, string)

  function AddressOf(m: Mapping): Address { (m.vault, m.item) }

  /** What an edit did to the vault, and what it answered: any combination can happen. */
  datatype Effect = Effect(stored: Option<Json>, answer: Option<Json>)

  datatype Edit = Edit(address: Address, item: Json)

  /** The vault's command line. A read that succeeds returns what the vault holds. */
  class CommandLine {
    var items: map<Address, Json>
    ghost var edits: seq<Edit>
    ghost var served: nat              // reads that succeeded
    ghost var failed: nat              // reads and edits that failed

    method Get(m: Mapping, answers: bool) returns (r: Option<Json>)
      modifies this`served, this`failed
      ensures r == if answers && AddressOf(m) in items then Some(items[AddressOf(m)]) else None
      ensures served == old(served) + if r.Some? then 1 else 0
      ensures failed == old(failed) + if r.Some? then 0 else 1
    {
      if !answers || AddressOf(m) !in items {
        failed := failed + 1;
        return None;
      }
      served := served + 1;
      r := Some(items[AddressOf(m)]);
    }

    method Put(m: Mapping, item: Json, effect: Effect) returns (r: Option<Json>)
      modifies this`items, this`edits, this`failed
      ensures r == effect.answer && edits == old(edits) + [Edit(AddressOf(m), item)]
      ensures failed == old(failed) + if r.Some? then 0 else 1
      ensures items == if effect.stored.Some? then old(items)[AddressOf(m) := effect.stored.value] else old(items)
    {
      edits := edits + [Edit(AddressOf(m), item)];
      if effect.stored.Some? { items := items[AddressOf(m) := effect.stored.value]; }
      if effect.answer.None? { failed := failed + 1; }
      r := effect.answer;
    }
  }

  datatype Cached = Cached(generation: nat, value: string, expiresAt: nat)

  /** A value the vault was seen to hold at a generation. */
  datatype Seen = Seen(id: CredentialId, generation: nat, value: string)

  /** The vault holds this value at this generation. */
  ghost predicate Held(items: map<Address, Json>, m: Mapping, s: Seen) {
    AddressOf(m) in items && Inspect(items[AddressOf(m)], m) == Ok((s.generation, s.value))
  }

  function Failure<A>(): Result<A> { Err(NewError(ErrorCode.CredentialUnavailable)) }

  class OnePasswordStore {
    const fields: map<CredentialId, Mapping>
    const ttl: Option<nat>
    const cli: CommandLine
    const clock: Clock
    var versions: map<CredentialId, nat>
    var cache: map<CredentialId, Cached>
    var blockedUntil: Option<nat>
    var credentialBlockedUntil: map<CredentialId, nat>
    ghost var seen: set<Seen>
    ghost var outage: bool             // the vault failed, backoff was due, and it has not answered since

    ghost predicate Valid()
      reads this
    {
      && (forall id :: id in cache ==> Seen(id, cache[id].generation, cache[id].value) in seen)
      && (forall s :: s in seen ==> s.id in versions && s.generation <= versions[s.id])
      && (ttl.None? ==> cache == map[])
      && (outage && ttl.Some? ==> blockedUntil.Some?)
    }

    /** No generation on record goes back, and nothing seen is forgotten. */
    twostate predicate Advanced()
      reads this
    {
      && old(seen) <= seen
      && forall id :: id in old(versions) ==> id in versions && old(versions)[id] <= versions[id]
    }

    /** Whatever was seen only now is this credential's, and was held when the call began or is held still. */
    twostate predicate SawOnly(id: CredentialId, m: Mapping)
      reads this, cli
    {
      forall s :: s in seen && s !in old(seen) ==> s.id == id && (Held(old(cli.items), m, s) || Held(cli.items, m, s))
    }

    /** A call that failed starts the vault-wide backoff, caching and the clock permitting. */
    twostate predicate BacksOff()
      reads this, cli, clock
    {
      cli.failed > old(cli.failed) && ttl.Some? && clock.now + 900_000 <= 0x7FFF_FFFF_FFFF_FFFF ==>
        outage && blockedUntil.Some? && old(clock.now) + 900_000 <= blockedUntil.value <= clock.now + 900_000
    }

    /** A backoff of the vault or of this credential has not passed. */
    twostate predicate Blocked(id: CredentialId)
      reads clock
    {
      || (old(blockedUntil).Some? && clock.now < old(blockedUntil).value)
      || (id in old(credentialBlockedUntil) && clock.now < old(credentialBlockedUntil)[id])
    }

    /** The cached value is gone, and the credential's own backoff runs, caching and the clock permitting. */
    twostate predicate Bars(id: CredentialId)
      reads this, clock
    {
      && id !in cache
      && (ttl.Some? && clock.now + 900_000 <= 0x7FFF_FFFF_FFFF_FFFF ==>
            id in credentialBlockedUntil && old(clock.now) + 900_000 <= credentialBlockedUntil[id] <= clock.now + 900_000)
    }

    /** No backoff keeps this credential from the vault. */
    ghost predicate Ready(id: CredentialId)
      reads this`blockedUntil, this`credentialBlockedUntil, clock
    {
      && (blockedUntil.Some? ==> blockedUntil.value <= clock.now)
      && (id in credentialBlockedUntil ==> credentialBlockedUntil[id] <= clock.now)
    }

    /** The vault's item is usable and does not go back. */
    ghost predicate Believable(id: CredentialId, m: Mapping)
      reads this`versions, cli`items
    {
      && AddressOf(m) in cli.items && Inspect(cli.items[AddressOf(m)], m).Ok?
      && Current(id, Inspect(cli.items[AddressOf(m)], m).value.0)
    }

    /** What is cached may be served while it is fresh. */
    ghost predicate Serves(id: CredentialId)
      reads this, clock
    {
      blockedUntil.None? && Ready(id) && id in cache && id in versions && versions[id] == cache[id].generation
    }

    /** No backoff is running and the reference is not behind. */
    ghost predicate Allows(ref: CredentialRef)
      reads this`blockedUntil, this`credentialBlockedUntil, this`versions, clock
    {
      Ready(ref.id) && Current(ref.id, ref.generation)
    }

    /** The generation does not go back. */
    ghost predicate Current(id: CredentialId, generation: nat)
      reads this`versions
    {
      id in versions ==> versions[id] <= generation
    }

    twostate predicate Uncalled()
      reads this, cli
    {
      cli.served == old(cli.served) && cli.failed == old(cli.failed) && cli.edits == old(cli.edits) && seen == old(seen)
    }

    constructor (fields: map<CredentialId, Mapping>, ttl: Option<nat>, cli: CommandLine, clock: Clock)
      ensures Valid() && this.fields == fields && this.ttl == ttl && this.cli == cli && this.clock == clock
      ensures versions == map[] && seen == {}
    {
      this.fields, this.ttl, this.cli, this.clock := fields, ttl, cli, clock;
      versions, cache, blockedUntil, credentialBlockedUntil := map[], map[], None, map[];
      seen, outage := {}, false;
    }

    method CheckBackoff(id: CredentialId) returns (open: bool)
      modifies clock
      ensures old(Ready(id)) ==> open
      ensures old(clock.now) <= clock.now
      ensures open ==> (blockedUntil.Some? ==> blockedUntil.value <= clock.now)
      ensures open ==> (id in credentialBlockedUntil ==> credentialBlockedUntil[id] <= clock.now)
      ensures !open ==>
        || (blockedUntil.Some? && old(clock.now) < blockedUntil.value)
        || (id in credentialBlockedUntil && old(clock.now) < credentialBlockedUntil[id])
    {
      if blockedUntil.Some? {
        var now := clock.Now();
        if now < blockedUntil.value { return false; }
      }
      if id in credentialBlockedUntil {
        var now := clock.Now();
        if now < credentialBlockedUntil[id] { return false; }
      }
      open := true;
    }

    method RecordFailure(id: CredentialId, wide: bool)
      requires Valid()
      modifies this`cache, this`blockedUntil, this`credentialBlockedUntil, this`outage, clock
      ensures Valid() && old(clock.now) <= clock.now && cache == old(cache) - {id}
      ensures var due := ttl.Some? && Later(clock.now, BACKOFF).Some?;
        && blockedUntil == (if wide && due then Later(clock.now, BACKOFF) else old(blockedUntil))
        && credentialBlockedUntil ==
            (if !wide && due then old(credentialBlockedUntil)[id := clock.now + BACKOFF] else old(credentialBlockedUntil))
        && outage == (old(outage) || (wide && due))
    {
      cache := cache - {id};
      if ttl.Some? {
        var now := clock.Now();
        var until := Later(now, BACKOFF);
        if until.Some? {
          if wide {
            blockedUntil := until;
            outage := true;
          } else {
            credentialBlockedUntil := credentialBlockedUntil[id := until.value];
          }
        }
      }
    }

    method CacheValue(id: CredentialId, generation: nat, value: string)
      requires Valid() && Seen(id, generation, value) in seen
      modifies this`cache, clock
      ensures Valid() && old(clock.now) <= clock.now
      ensures cache == if ttl.Some? && Later(clock.now, ttl.value).Some?
                       then old(cache)[id := Cached(generation, value, clock.now + ttl.value)] else old(cache)
    {
      if ttl.Some? {
        var now := clock.Now();
        var expiresAt := Later(now, ttl.value);
        if expiresAt.Some? { cache := cache[id := Cached(generation, value, expiresAt.value)]; }
      }
    }

    /** A fresh read of the vault. */
    method Read(id: CredentialId, m: Mapping, answers: bool) returns (r: Result<(Json, nat, string)>)
      requires Valid()
      modifies this, clock, cli`served, cli`failed
      ensures Valid() && Advanced() && old(clock.now) <= clock.now
      ensures r.Ok? ==> (
        var (item, generation, value) := r.value;
        && answers && AddressOf(m) in cli.items && item == cli.items[AddressOf(m)]
        && Inspect(item, m) == Ok((generation, value)) && Held(cli.items, m, Seen(id, generation, value))
        && versions == old(versions)[id := generation]
        && seen == old(seen) + {Seen(id, generation, value)}
        && cache == old(cache) - {id} && blockedUntil == None && !outage
        && credentialBlockedUntil == old(credentialBlockedUntil) - {id}
        && cli.served == old(cli.served) + 1)
      ensures r.Err? ==> versions == old(versions) && seen == old(seen) && cache.Keys <= old(cache.Keys)
      ensures old(outage) && !outage ==> cli.served > old(cli.served)
      ensures old(cli.served) <= cli.served && old(cli.failed) <= cli.failed
      ensures r.Ok? ==> cli.failed == old(cli.failed)
      ensures SawOnly(id, m) && BacksOff()
      ensures Blocked(id) ==> r.Err? && Uncalled()
      ensures r.Err? && cli.served != old(cli.served) ==> Bars(id)
      // A vault that answers with a usable item, no older than the one on record, is believed.
      ensures old(Ready(id)) ==> (cli.served != old(cli.served) <==> answers && AddressOf(m) in cli.items)
      ensures cli.served != old(cli.served) ==>
        answers && AddressOf(m) in cli.items && (r.Ok? <==> old(Believable(id, m)))
    {
      hide Inspect;
      var open := CheckBackoff(id);
      if !open { return Failure(); }
      cache := cache - {id};
      var item := cli.Get(m, answers);
      if item.None? {
        RecordFailure(id, true);
        return Failure();
      }
      // Any answer proves the vault is back, whatever this item looks like.
      blockedUntil, outage := None, false;
      r := Accept(id, m, item.value);
    }

    /** The item just read becomes the generation on record, unless it cannot be used or goes back. */
    method Accept(id: CredentialId, m: Mapping, item: Json) returns (r: Result<(Json, nat, string)>)
      requires Valid()
      modifies this`versions, this`cache, this`blockedUntil, this`credentialBlockedUntil, this`seen, this`outage, clock
      ensures Valid() && Advanced() && old(clock.now) <= clock.now
      ensures blockedUntil == old(blockedUntil) && outage == old(outage)
      ensures if r.Ok? then credentialBlockedUntil == old(credentialBlockedUntil) - {id} else Bars(id)
      ensures r.Ok? ==> (
        var (read, generation, value) := r.value;
        && read == item && Inspect(item, m) == Ok((generation, value))
        && versions == old(versions)[id := generation]
        && seen == old(seen) + {Seen(id, generation, value)} && cache == old(cache))
      ensures r.Ok? <==> Inspect(item, m).Ok? && old(Current(id, Inspect(item, m).value.0))
      ensures r.Err? ==> versions == old(versions) && seen == old(seen) && cache.Keys <= old(cache.Keys)
    {
      hide Inspect;
      var found := Inspect(item, m);
      if found.Err? {
        RecordFailure(id, false);
        return Err(found.error);
      }
      var (generation, value) := found.value;
      if id in versions && generation < versions[id] {
        RecordFailure(id, false);
        return Failure();
      }
      versions := versions[id := generation];
      seen := seen + {Seen(id, generation, value)};
      credentialBlockedUntil := credentialBlockedUntil - {id};
      r := Ok((item, generation, value));
    }

    /** A value that was really seen at the generation on record; from the cache only while
        it is fresh and the vault is not known to be failing. */
    method CachedOrRead(id: CredentialId, m: Mapping, answers: bool, ghost truth: Truth)
      returns (r: Result<(nat, string)>)
      requires Valid() && id in fields && fields[id] == m
      modifies this, clock, cli`served, cli`failed
      ensures Valid() && Advanced() && old(clock.now) <= clock.now
      ensures r.Ok? ==> Seen(id, r.value.0, r.value.1) in seen && id in versions && versions[id] == r.value.0
      ensures r.Ok? && cli.served == old(cli.served) ==>
        !old(outage) && id in old(cache) && old(clock.now) < old(cache[id].expiresAt)
      ensures r.Ok? && cli.served == old(cli.served) ==>
        seen == old(seen) && r.value == (old(cache[id]).generation, old(cache[id]).value)
      ensures r.Ok? && cli.served != old(cli.served) ==> Held(cli.items, m, Seen(id, r.value.0, r.value.1))
      ensures r.Ok? && cli.served != old(cli.served) ==>
        SimpleLoad(View(cli.items, fields), CredentialRef(id, r.value.0)) == Ok(r.value.1)
      ensures Truthful(old(seen), truth) && Tells(View(cli.items, fields), truth) ==>
        Truthful(seen, truth) && (r.Ok? ==> r.value.1 == truth(id, r.value.0))
      ensures old(outage) && !outage ==> cli.served > old(cli.served)
      ensures old(cli.served) <= cli.served
      // A fresh entry is served without asking the vault.
      ensures old(Serves(id)) && clock.now < old(cache[id]).expiresAt ==>
        Uncalled() && r == Ok((old(cache[id]).generation, old(cache[id]).value))
      ensures SawOnly(id, m) && BacksOff()
      ensures Blocked(id) ==> r.Err? && Uncalled()
      ensures r.Err? && cli.served != old(cli.served) ==> Bars(id)
      ensures old(Ready(id)) && answers && AddressOf(m) in cli.items && cli.served == old(cli.served) ==> r.Ok?
      ensures cli.served != old(cli.served) ==> (r.Ok? <==> old(Believable(id, m)))
    {
      hide Inspect, Later, Held, Believable, View, Truthful, Tells, SimpleLoad;
      var open := CheckBackoff(id);
      if !open { return Failure(); }
      if id in cache && blockedUntil.None? {
        var cached := cache[id];
        var now := clock.Now();
        if now < cached.expiresAt && id in versions && versions[id] == cached.generation {
          SeenIsTrue(seen, truth, Seen(id, cached.generation, cached.value));
          return Ok((cached.generation, cached.value));
        }
      }
      r := ReadAndCache(id, m, answers);
      Learnt(old(seen), seen, cli.items, fields, id, truth, r);
    }

    /** A fresh read, kept for a while. */
    method ReadAndCache(id: CredentialId, m: Mapping, answers: bool) returns (r: Result<(nat, string)>)
      requires Valid()
      modifies this, clock, cli`served, cli`failed
      ensures Valid() && Advanced() && old(clock.now) <= clock.now
      ensures r.Ok? ==>
        && Held(cli.items, m, Seen(id, r.value.0, r.value.1)) && Seen(id, r.value.0, r.value.1) in seen
        && id in versions && versions[id] == r.value.0 && cli.served == old(cli.served) + 1
      ensures old(outage) && !outage ==> cli.served > old(cli.served)
      ensures old(cli.served) <= cli.served
      ensures SawOnly(id, m) && BacksOff()
      ensures Blocked(id) ==> r.Err? && Uncalled()
      ensures r.Err? && cli.served != old(cli.served) ==> Bars(id)
      ensures old(Ready(id)) ==> (cli.served != old(cli.served) <==> answers && AddressOf(m) in cli.items)
      ensures cli.served != old(cli.served) ==> (r.Ok? <==> old(Believable(id, m)))
    {
      hide Inspect, Later, Held, Believable;
      var current := Read(id, m, answers);
      if current.Err? { return Err(current.error); }
      var (_, generation, value) := current.value;
      CacheValue(id, generation, value);
      r := Ok((generation, value));
    }

    /** The newest generation seen, and its value: held by the vault now or when it was seen. */
    method Latest(id: CredentialId, answers: bool, ghost truth: Truth) returns (r: Result<(CredentialRef, string)>)
      requires Valid()
      modifies this, clock, cli`served, cli`failed
      ensures Valid() && Advanced()
      ensures r.Ok? ==> r.value.0.id == id && Seen(id, r.value.0.generation, r.value.1) in seen
      ensures r.Ok? ==> id in versions && versions[id] == r.value.0.generation
      ensures r.Ok? && old(outage) ==> cli.served > old(cli.served)
      ensures r.Ok? ==>
        Seen(id, r.value.0.generation, r.value.1) in old(seen) || SimpleLoad(View(cli.items, fields), r.value.0) == Ok(r.value.1)
      ensures r.Ok? && cli.served != old(cli.served) ==> SimpleLoad(View(cli.items, fields), r.value.0) == Ok(r.value.1)
      ensures Truthful(old(seen), truth) && Tells(View(cli.items, fields), truth) ==>
        Truthful(seen, truth) && (r.Ok? ==> r.value.1 == truth(id, r.value.0.generation))
      ensures id in fields ==> SawOnly(id, fields[id])
      ensures id !in fields ==> seen == old(seen)
      ensures BacksOff()
      ensures Blocked(id) ==> r.Err? && Uncalled()
      ensures r.Err? && cli.served != old(cli.served) ==> Bars(id)
      ensures id in fields && old(Ready(id)) && answers && old(Believable(id, fields[id])) ==> r.Ok?
    {
      hide Inspect, Later, View, Held, Truthful, Tells, SimpleLoad;
      if id !in fields { return Failure(); }
      var read := CachedOrRead(id, fields[id], answers, truth);
      if read.Err? { return Err(read.error); }
      r := Ok((CredentialRef(id, read.value.0), read.value.1));
    }

    /** What the simple store would load is believed, unless it goes back. */
    lemma LoadBelieves(ref: CredentialRef)
      ensures SimpleLoad(View(cli.items, fields), ref).Ok? ==>
        && ref.id in fields && AddressOf(fields[ref.id]) in cli.items
        && (Current(ref.id, ref.generation) ==> Believable(ref.id, fields[ref.id]))
    {
      hide Inspect;
    }

    /** The value the vault held at exactly the generation asked for. */
    method Load(ref: CredentialRef, answers: bool, ghost truth: Truth) returns (r: Result<string>)
      requires Valid()
      modifies this, clock, cli`served, cli`failed
      ensures Valid() && Advanced()
      ensures r.Ok? ==> Seen(ref.id, ref.generation, r.value) in seen
      ensures r.Ok? ==> ref.id in versions && versions[ref.id] == ref.generation
      ensures ref.id in old(versions) && ref.generation < old(versions[ref.id]) ==> r.Err?
      ensures r.Ok? && old(outage) ==> cli.served > old(cli.served)
      ensures r.Ok? ==>
        Seen(ref.id, ref.generation, r.value) in old(seen) || SimpleLoad(View(cli.items, fields), ref) == Ok(r.value)
      ensures Truthful(old(seen), truth) && Tells(View(cli.items, fields), truth) ==>
        Truthful(seen, truth) && (r.Ok? ==> r.value == truth(ref.id, ref.generation))
      ensures ref.id in fields ==> SawOnly(ref.id, fields[ref.id])
      ensures ref.id !in fields ==> seen == old(seen)
      ensures BacksOff()
      ensures Blocked(ref.id) ==> r.Err? && Uncalled()
      // Once the vault has answered, the answer is the simple store's, unless it goes back.
      ensures cli.served != old(cli.served) ==> ref.id in fields
      ensures cli.served != old(cli.served) ==>
        if old(Believable(ref.id, fields[ref.id])) then r == SimpleLoad(View(cli.items, fields), ref) else r.Err?
      // What the vault holds can be loaded.
      ensures SimpleLoad(View(cli.items, fields), ref).Ok? && answers && old(Ready(ref.id)) && old(Current(ref.id, ref.generation)) ==>
        r.Ok?
    {
      LoadBelieves(ref);
      hide Inspect, Later, View, Held, Truthful, Tells, SimpleLoad, Believable, Ready;
      if ttl.Some? && ref.id in versions && ref.generation < versions[ref.id] { return Failure(); }
      if ref.id in cache && cache[ref.id].generation != ref.generation { cache := cache - {ref.id}; }
      if ref.id !in fields { return Failure(); }
      var read := CachedOrRead(ref.id, fields[ref.id], answers, truth);
      if read.Err? { return Err(read.error); }
      if read.value.0 != ref.generation {
        LoadMisses(cli.items, fields, ref, Seen(ref.id, read.value.0, read.value.1));
        cache := cache - {ref.id};
        return Failure();
      }
      r := Ok(read.value.1);
    }

    /** Compare, edit, and believe the edit only once the vault is read again. */
    method Replace(expected: CredentialRef, next: string, first: bool, effect: Effect, second: bool)
      returns (r: Result<CredentialRef>)
      requires Valid()
      modifies this, clock, cli
      ensures Valid() && Advanced()
      ensures cli.edits == old(cli.edits) ==> r.Err? && cli.items == old(cli.items)
      ensures cli.edits != old(cli.edits) ==>
        expected.id in fields && next != "" && Proposes(old(cli.items), fields[expected.id], expected, next, old(cli.edits), cli.edits)
      ensures r.Ok? ==>
        && r.value == CredentialRef(expected.id, expected.generation + 1)
        && Stored(old(cli.items), cli.items, fields[expected.id], r.value.generation, next)
        && Seen(expected.id, r.value.generation, next) in seen
      ensures r.Ok? && OneItemEach(fields) ==>
        SimpleReplace(View(old(cli.items), fields), expected, next) == (View(cli.items, fields), r)
      ensures expected.id in fields ==>
        cli.items - {AddressOf(fields[expected.id])} == old(cli.items) - {AddressOf(fields[expected.id])}
      ensures expected.id !in fields ==> seen == old(seen)
      ensures expected.id in fields ==> SawOnly(expected.id, fields[expected.id])
      ensures BacksOff()
      ensures Blocked(expected.id) ==> r.Err? && Uncalled()
      ensures r.Err? && !Uncalled() ==> Bars(expected.id)
      // An edit stored and answered faithfully succeeds.
      ensures next != "" && first && second && expected.id in fields && old(Allows(expected)) ==>
        (Editable(old(cli.items), fields[expected.id], expected, next, effect) ==> r.Ok?)
    {
      hide View, Stored, Proposes, Inspect, SimpleReplace, Edited, Editable;
      if next == "" { return Failure(); }
      cache := cache - {expected.id};
      var open := CheckBackoff(expected.id);
      if !open { return Failure(); }
      if expected.id !in fields { return Failure(); }
      r := Exchange(expected, fields[expected.id], next, first, effect, second);
      if r.Err? { RecordFailure(expected.id, false); }
      if r.Ok? && OneItemEach(fields) { ReplaceRefines(old(cli.items), cli.items, fields, expected, next); }
    }

    /** The vault holds what it answered, which is what was wanted. */
    ghost predicate Believed(m: Mapping, generation: nat, next: string, wanted: Option<Json>, answer: Json)
      reads cli`items
    {
      && AddressOf(m) in cli.items && cli.items[AddressOf(m)] == answer
      && Inspect(answer, m) == Ok((generation, next)) && Normal(answer) == wanted
    }

    lemma EditableBelieves(m: Mapping, expected: CredentialRef, next: string, effect: Effect)
      requires next != ""
      ensures Editable(cli.items, m, expected, next, effect) ==>
        AddressOf(m) in cli.items && (Current(expected.id, expected.generation) ==> Believable(expected.id, m))
    {
      EditableMeans(cli.items, m, expected, next, effect);
      hide Editable, Inspect, Normal, Edited;
    }

    method Exchange(expected: CredentialRef, m: Mapping, next: string, first: bool, effect: Effect, second: bool)
      returns (r: Result<CredentialRef>)
      requires Valid() && next != ""
      modifies this, clock, cli
      ensures Valid() && Advanced()
      ensures cli.edits == old(cli.edits) ==> r.Err? && cli.items == old(cli.items)
      ensures cli.edits != old(cli.edits) ==> Proposes(old(cli.items), m, expected, next, old(cli.edits), cli.edits)
      ensures r.Ok? ==>
        && r.value == CredentialRef(expected.id, expected.generation + 1)
        && Stored(old(cli.items), cli.items, m, r.value.generation, next)
        && Seen(expected.id, r.value.generation, next) in seen
      ensures cli.items - {AddressOf(m)} == old(cli.items) - {AddressOf(m)}
      ensures old(clock.now) <= clock.now && SawOnly(expected.id, m) && BacksOff()
      ensures Blocked(expected.id) ==> Uncalled()
      ensures first && second && old(Allows(expected)) && Editable(old(cli.items), m, expected, next, effect) ==> r.Ok?
    {
      hide Inspect, Normal, Edited, Proposes, Stored, VaultItem.Unsupported;
      var id := expected.id;
      EditableMeans(cli.items, m, expected, next, effect);
      EditableBelieves(m, expected, next, effect);
      hide Editable, Believable;
      var read := Read(id, m, first);
      if read.Err? { return Err(read.error); }
      var (item, generation, value) := read.value;
      if generation != expected.generation { return Failure(); }
      if VaultItem.Unsupported(item) { return Err(NewError(ErrorCode.Unsupported)); }
      if generation + 1 > U64_MAX { return Failure(); }
      ProposesEdit(cli.items, m, expected, value, next, cli.edits);
      var edited := Edited(item, m.field, next);
      var wanted := Normal(edited);
      var answer := cli.Put(m, edited, effect);
      r := Confirm(id, m, generation, next, wanted, answer, second);
      if r.Ok? { StoresEdit(old(cli.items), cli.items, m, generation, value, next); }
    }

    /** The edit's own answer is checked, and then a read of what the vault now holds. */
    method Confirm(id: CredentialId, m: Mapping, generation: nat, next: string, wanted: Option<Json>, answer: Option<Json>,
        second: bool)
      returns (r: Result<CredentialRef>)
      requires Valid()
      modifies this, clock, cli`served, cli`failed
      ensures Valid() && Advanced()
      ensures r.Ok? ==>
        && r.value == CredentialRef(id, generation + 1) && Seen(id, generation + 1, next) in seen
        && AddressOf(m) in cli.items
        && Inspect(cli.items[AddressOf(m)], m) == Ok((generation + 1, next))
        && Normal(cli.items[AddressOf(m)]) == wanted
      ensures old(clock.now) <= clock.now && old(cli.failed) <= cli.failed
      ensures SawOnly(id, m)
      ensures (answer.None? || cli.failed > old(cli.failed)) && ttl.Some? && clock.now + 900_000 <= 0x7FFF_FFFF_FFFF_FFFF ==>
        outage && blockedUntil.Some? && old(clock.now) + 900_000 <= blockedUntil.value <= clock.now + 900_000
      ensures second && old(Allows(CredentialRef(id, generation + 1))) && answer.Some? ==>
        (Believed(m, generation + 1, next, wanted, answer.value) ==> r.Ok?)
    {
      hide Inspect, Normal, Held;
      if answer.None? {
        RecordFailure(id, true);
        return Failure();
      }
      var found := Inspect(answer.value, m);
      if found.Err? { return Err(found.error); }
      versions := versions[id := if id in versions then Max(versions[id], found.value.0) else found.value.0];
      if found.value.0 != generation + 1 || found.value.1 != next || Normal(answer.value) != wanted { return Failure(); }
      r := ReadBack(id, m, generation + 1, next, wanted, second);
    }

    /** Nothing is believed of the edit but what the vault now holds. */
    method ReadBack(id: CredentialId, m: Mapping, generation: nat, next: string, wanted: Option<Json>, second: bool)
      returns (r: Result<CredentialRef>)
      requires Valid()
      modifies this, clock, cli`served, cli`failed
      ensures Valid() && Advanced()
      ensures r.Ok? ==>
        && r.value == CredentialRef(id, generation) && Seen(id, generation, next) in seen && AddressOf(m) in cli.items
        && Believed(m, generation, next, wanted, cli.items[AddressOf(m)])
      ensures old(clock.now) <= clock.now && old(cli.failed) <= cli.failed
      ensures SawOnly(id, m) && BacksOff()
      ensures second && old(Allows(CredentialRef(id, generation))) && AddressOf(m) in cli.items ==>
        (Believed(m, generation, next, wanted, cli.items[AddressOf(m)]) ==> r.Ok?)
    {
      hide Inspect, Normal, Held, Later;
      var again := Read(id, m, second);
      if again.Err? { return Err(again.error); }
      var (readback, reread, kept) := again.value;
      if reread != generation || kept != next || Normal(readback) != wanted { return Failure(); }
      CacheValue(id, generation, kept);
      r := Ok(CredentialRef(id, generation));
    }
  }

  /** One edit, proposed only for an item at the expected generation that JSON can carry. */
  ghost predicate Proposes(items: map<Address, Json>, m: Mapping, expected: CredentialRef, next: string,
      before: seq<Edit>, after: seq<Edit>)
  {
    && AddressOf(m) in items
    && var item := items[AddressOf(m)];
    && Inspect(item, m).Ok? && Inspect(item, m).value.0 == expected.generation && !VaultItem.Unsupported(item)
    && GetList(item, "fields").Some?
    && after == before + [Edit(AddressOf(m), Edited(item, m.field, next))]
  }

  /** The vault holds the new value at the new generation, and by normal form nothing else moved. */
  ghost predicate Stored(before: map<Address, Json>, after: map<Address, Json>, m: Mapping, generation: nat, next: string) {
    && AddressOf(m) in before && AddressOf(m) in after
    && var was := before[AddressOf(m)]; var now := after[AddressOf(m)];
    && Inspect(was, m).Ok? && Inspect(was, m).value.0 + 1 == generation
    && Inspect(now, m) == Ok((generation, next))
    && Normal(was).Some? && GetList(Normal(was).value, "fields").Some?
    && Normal(now) == Some(Retarget(Normal(was).value, m.field, next))
  }

  /** The vault holds an item that can be edited as asked, and the edit stores and answers one whose
      normal form is the old one's with the new value, at the next generation. */
  ghost predicate Editable(items: map<Address, Json>, m: Mapping, expected: CredentialRef, next: string, effect: Effect) {
    && AddressOf(m) in items && !VaultItem.Unsupported(items[AddressOf(m)]) && expected.generation + 1 <= U64_MAX
    && effect.stored.Some? && effect.answer == effect.stored
    && Stored(items, items[AddressOf(m) := effect.stored.value], m, expected.generation + 1, next)
  }

  lemma EditableMeans(items: map<Address, Json>, m: Mapping, expected: CredentialRef, next: string, effect: Effect)
    requires next != ""
    ensures Editable(items, m, expected, next, effect) ==> (
      var item := items[AddressOf(m)];
      && Inspect(item, m).Ok? && Inspect(item, m).value.0 == expected.generation
      && effect.stored.Some? && effect.answer == effect.stored
      && Inspect(effect.stored.value, m) == Ok((expected.generation + 1, next))
      && Normal(effect.stored.value) == Normal(Edited(item, m.field, next))
      && !VaultItem.Unsupported(item) && expected.generation + 1 <= U64_MAX)
  {
    hide Inspect, Normal, Edited, Retarget, VaultItem.Unsupported;
    if Editable(items, m, expected, next, effect) {
      var (generation, value) := Inspect(items[AddressOf(m)], m).value;
      NormalCommutes(items[AddressOf(m)], m, generation, value, next);
    }
  }

  lemma ProposesEdit(items: map<Address, Json>, m: Mapping, expected: CredentialRef, value: string, next: string, before: seq<Edit>)
    requires AddressOf(m) in items && Inspect(items[AddressOf(m)], m) == Ok((expected.generation, value))
    requires !VaultItem.Unsupported(items[AddressOf(m)])
    ensures GetList(items[AddressOf(m)], "fields").Some?
    ensures Proposes(items, m, expected, next, before, before + [Edit(AddressOf(m), Edited(items[AddressOf(m)], m.field, next))])
  {
    InspectMeans(items[AddressOf(m)], m, expected.generation, value);
    hide Inspect, Edited, VaultItem.Unsupported;
  }

  lemma StoresEdit(before: map<Address, Json>, after: map<Address, Json>, m: Mapping, generation: nat, value: string, next: string)
    requires AddressOf(m) in before && AddressOf(m) in after && next != ""
    requires Inspect(before[AddressOf(m)], m) == Ok((generation, value))
    requires Inspect(after[AddressOf(m)], m) == Ok((generation + 1, next))
    requires GetList(before[AddressOf(m)], "fields").Some?
    requires Normal(after[AddressOf(m)]) == Normal(Edited(before[AddressOf(m)], m.field, next))
    ensures Stored(before, after, m, generation + 1, next)
  {
    NormalCommutes(before[AddressOf(m)], m, generation, value, next);
    hide Inspect, Edited, Normal, Retarget;
  }

  // ----------------------------------------------------------- a simple versioned store

  /** The in-memory store: one generation and value per credential. */
  type Simple = map<CredentialId, (nat, string)>

  function SimpleLoad(s: Simple, ref: CredentialRef): Result<string> {
    if ref.id in s && s[ref.id].0 == ref.generation then Ok(s[ref.id].1) else Failure()
  }

  function SimpleReplace(s: Simple, expected: CredentialRef, next: string): (Simple, Result<CredentialRef>) {
    if expected.id !in s || s[expected.id].0 != expected.generation || expected.generation + 1 > U64_MAX then (s, Failure())
    else
      (s[expected.id := (expected.generation + 1, next)], Ok(CredentialRef(expected.id, expected.generation + 1)))
  }

  /** The vault, seen as a simple store. */
  function View(items: map<Address, Json>, fields: map<CredentialId, Mapping>): Simple {
    map id | id in fields && AddressOf(fields[id]) in items && Inspect(items[AddressOf(fields[id])], fields[id]).Ok? ::
      Inspect(items[AddressOf(fields[id])], fields[id]).value
  }

  predicate OneItemEach(fields: map<CredentialId, Mapping>) {
    forall a, b :: a in fields && b in fields && a != b ==> AddressOf(fields[a]) != AddressOf(fields[b])
  }

  /** A replace that succeeds does to the vault what the simple store's replace would. */
  lemma ReplaceRefines(before: map<Address, Json>, after: map<Address, Json>, fields: map<CredentialId, Mapping>,
      expected: CredentialRef, next: string)
    requires OneItemEach(fields) && expected.id in fields
    requires var m := fields[expected.id];
      Stored(before, after, m, expected.generation + 1, next) && after - {AddressOf(m)} == before - {AddressOf(m)}
    ensures SimpleReplace(View(before, fields), expected, next)
      == (View(after, fields), Ok(CredentialRef(expected.id, expected.generation + 1)))
  {
    hide View, Normal, Retarget;
    var m := fields[expected.id];
    VersionsFit(after[AddressOf(m)], m);
    var was, now := View(before, fields), View(after, fields);
    ViewAt(before, fields, expected.id);
    ViewAt(after, fields, expected.id);
    hide Inspect, Stored;
    forall id: CredentialId | id != expected.id
      ensures id in now <==> id in was
      ensures id in was ==> now[id] == was[id]
    {
      ViewAt(before, fields, id);
      ViewAt(after, fields, id);
      if id in fields {
        var a := AddressOf(fields[id]);
        assert a in before <==> a in before - {AddressOf(m)};
        assert a in after <==> a in after - {AddressOf(m)};
        if a in before { assert (before - {AddressOf(m)})[a] == (after - {AddressOf(m)})[a]; }
      }
    }
    assert now == was[expected.id := (expected.generation + 1, next)];
  }

  lemma ViewAt(items: map<Address, Json>, fields: map<CredentialId, Mapping>, id: CredentialId)
    ensures id in View(items, fields) <==>
      id in fields && AddressOf(fields[id]) in items && Inspect(items[AddressOf(fields[id])], fields[id]).Ok?
    ensures id in View(items, fields) ==> View(items, fields)[id] == Inspect(items[AddressOf(fields[id])], fields[id]).value
  {
    hide Inspect;
  }

  lemma VersionsFit(item: Json, m: Mapping)
    ensures Inspect(item, m).Ok? ==> 0 < Inspect(item, m).value.0 <= U64_MAX
  {
  }

  /** What is held at another generation is not what was asked for. */
  lemma LoadMisses(items: map<Address, Json>, fields: map<CredentialId, Mapping>, ref: CredentialRef, s: Seen)
    requires ref.id in fields && s.generation != ref.generation
    ensures Held(items, fields[ref.id], s) ==> SimpleLoad(View(items, fields), ref) == Failure()
  {
    hide Inspect;
  }

  /** What each generation of each credential holds, for a vault whose items nobody rewrites in place. */
  type Truth = (CredentialId, nat) -> string

  ghost predicate Truthful(seen: set<Seen>, truth: Truth) {
    forall s :: s in seen ==> s.value == truth(s.id, s.generation)
  }

  ghost predicate Tells(s: Simple, truth: Truth) {
    forall id :: id in s ==> s[id].1 == truth(id, s[id].0)
  }

  /** What a call that reached the vault has learnt. */
  lemma Learnt(before: set<Seen>, after: set<Seen>, items: map<Address, Json>, fields: map<CredentialId, Mapping>,
      id: CredentialId, truth: Truth, r: Result<(nat, string)>)
    requires id in fields && before <= after
    requires forall s :: s in after && s !in before ==> s.id == id && Held(items, fields[id], s)
    requires r.Ok? ==> var s := Seen(id, r.value.0, r.value.1); s in after && Held(items, fields[id], s)
    ensures Truthful(before, truth) && Tells(View(items, fields), truth) ==>
      Truthful(after, truth) && (r.Ok? ==> r.value.1 == truth(id, r.value.0))
    ensures r.Ok? ==> SimpleLoad(View(items, fields), CredentialRef(id, r.value.0)) == Ok(r.value.1)
  {
    hide Inspect, View, Held, SimpleLoad, Tells;
    SawTheTruth(before, after, items, fields, id, truth);
    if r.Ok? { ReadRefines(items, fields, CredentialRef(id, r.value.0), r.value.1); }
  }

  lemma SeenIsTrue(seen: set<Seen>, truth: Truth, s: Seen)
    requires s in seen
    ensures Truthful(seen, truth) ==> s.value == truth(s.id, s.generation)
  {
  }

  /** What is seen in a vault that tells the truth is the truth. */
  lemma SawTheTruth(before: set<Seen>, after: set<Seen>, items: map<Address, Json>, fields: map<CredentialId, Mapping>,
      id: CredentialId, truth: Truth)
    requires id in fields
    requires forall s :: s in after && s !in before ==> s.id == id && Held(items, fields[id], s)
    ensures Truthful(before, truth) && Tells(View(items, fields), truth) ==> Truthful(after, truth)
  {
    hide Inspect;
    forall s | s in after && s !in before
      ensures Tells(View(items, fields), truth) ==> s.value == truth(s.id, s.generation)
    {
      assert Held(items, fields[id], s);
      assert s.id in View(items, fields);
    }
  }

  /** A value just read from the vault is the one the simple store would load. */
  lemma ReadRefines(items: map<Address, Json>, fields: map<CredentialId, Mapping>, ref: CredentialRef, value: string)
    requires ref.id in fields
    ensures SimpleLoad(View(items, fields), ref) == Ok(value) <==> Held(items, fields[ref.id], Seen(ref.id, ref.generation, value))
  {
  }
}
