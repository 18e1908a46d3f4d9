/** What holds in every reachable state of the daemon. */
module Safety {
  import opened Domain
  import opened Tables
  import opened Laws
  import opened System

  // ------------------------------------------------------------------- one attempt

  /** Everything the history says about one attempt. */
  datatype View = View(
    invoked: bool, upstream: bool, evidence: Option<Settlement>, unloaded: bool, certified: bool,
    resolved: bool, delivered: bool, finished: bool)

  function ViewOf(h: History, id: AttemptId): View {
    View(id in h.invoked, id in h.upstream, if id in h.evidence then Some(h.evidence[id]) else None,
         id in h.unloaded, id in h.certified, id in h.resolved, id in h.delivered, id in h.finished)
  }

  const UNTOUCHED := View(false, false, None, false, false, false, false, false)

  /** What the run proved about the attempt, had it ended now. */
  function Proof(v: View): Settlement {
    if v.unloaded || v.certified then Settlement.NotDispatched
    else if v.evidence.Some? then v.evidence.value
    else Settlement.Uncertain
  }

  /** The row says what the run proved; an operator may have closed an uncertain one. */
  predicate SettledAs(r: AttemptRow, v: View) {
    || r.state == Proof(v).State()
    || (Proof(v).Uncertain? && v.resolved && (r.state.Succeeded? || r.state.Rejected?))
  }

  ghost predicate RowInv(r: AttemptRow, v: View, monotone: bool, clock: nat) {
    && (v.upstream ==> v.invoked)
    && (r.state.Reserved? ==> !v.invoked)
    && (r.state.NotDispatched? ==> !v.upstream && (v.invoked ==> v.certified))
    && (r.state.Succeeded? || r.state.Rejected? ==>
          v.resolved || (v.evidence.Some? && r.state == v.evidence.value.State()))
    && (v.certified ==> v.invoked && !v.upstream)
    && (v.unloaded ==> !v.invoked)
    && (v.evidence.Some? ==> v.invoked && v.evidence.value.Evidence() && !v.certified)
    && (v.resolved ==> r.state.Succeeded? || r.state.Rejected?)
    && (v.delivered ==> v.evidence.Some? && r.state == v.evidence.value.State())
    && (v.finished && monotone ==> SettledAs(r, v))
    && (monotone ==> 0 <= r.data.updatedAt <= clock)
  }

  /** What the row and the history must be while an execution stands at a phase. */
  ghost predicate PhaseInv(p: Phase, clean: bool, r: AttemptRow, v: View, monotone: bool, clock: nat)
    requires p.Owns().Some?
  {
    match p
    case Prepared(_) | Loaded(_) => r.state.Reserved? && v == UNTOUCHED
    case Unloaded(_) => r.state.Reserved? && v == UNTOUCHED.(unloaded := true)
    case Ready(_) => r.state.Dispatching? && v == UNTOUCHED
    case Sending(_) | Replied(_) =>
      r.state.Dispatching? && v == UNTOUCHED.(invoked := true, upstream := v.upstream)
    case SendFailed(_, c) =>
      && r.state.Dispatching? && (c.NotDispatched? ==> !v.upstream)
      && v == UNTOUCHED.(invoked := true, upstream := v.upstream, certified := c.NotDispatched?)
    case Draining(_) | Interrupted(_) =>
      r.state.Streaming? && v == UNTOUCHED.(invoked := true, upstream := v.upstream)
    case Proven(_, o, _) =>
      && r.state.Streaming? && o.Evidence()
      && v == UNTOUCHED.(invoked := true, upstream := v.upstream, evidence := Some(o))
    case Dropping(_, o, at) =>
      && !v.finished && !v.delivered && 0 <= at && (monotone ==> at <= clock)
      && (o.NotDispatched? || o.Uncertain?)
      && (o.NotDispatched? ==> !v.invoked && (r.state.Reserved? || r.state.NotDispatched?))
      && (clean && monotone ==> (
            && o.Uncertain? && r.state.Streaming? && r.data.updatedAt <= at
            && v == UNTOUCHED.(invoked := true, upstream := v.upstream)))
  }

  // ------------------------------------------------------------------ one execution

  /** The caller sees an in-order prefix of the upstream bytes, and the chunk that
      proves the outcome stays back until it is settled. */
  ghost predicate ChunksInv(x: Exec) {
    && x.offered <= x.read
    && (x.phase.Draining? || x.phase.Interrupted? ==> x.connected ==> x.offered == x.read)
    && (x.phase.Proven? && x.phase.last.None? ==> x.connected ==> x.offered == x.read)
    && (x.phase.Proven? && x.phase.last.Some? ==> (
          && x.read != [] && x.read[|x.read| - 1] == x.phase.last.value
          && x.offered <= x.read[..|x.read| - 1]
          && (x.connected ==> x.offered == x.read[..|x.read| - 1])))
    && (x.phase.BeforeStream() ==> x.read == [])
    && (x.terminal ==> x.phase.Ended? && x.read != [] && x.offered == x.read)
  }

  /** A native thread only ever runs on the binding its session names. */
  ghost predicate RouteInv(t: Rows, x: Exec) {
    && (x.session.Some? && x.resolved.Some? ==>
          && x.resolved.value in t.bindings
          && t.bindings[x.resolved.value].principal == x.principal.id
          && t.bindings[x.resolved.value].session == x.session.value)
    && (x.resolved.Some? ==> x.admission.binding == x.resolved.value)
    && (x.phase.Bound? || x.phase.Owns().Some? ==> x.resolved.Some?)
  }

  ghost predicate ExecInv(s: System, x: Exec) {
    && ChunksInv(x)
    && RouteInv(s.rows, x)
    && (x.phase.Owns().Some? ==>
          var id := x.phase.id;
          && id in s.rows.attempts
          && s.rows.attempts[id].binding == x.admission.binding
          && PhaseInv(x.phase, x.clean, s.rows.attempts[id], ViewOf(s.hist, id), s.hist.monotone, s.clock))
  }

  // ------------------------------------------------------------------- whole system

  predicate Distinct(ids: seq<AttemptId>) {
    forall i, j :: 0 <= i < j < |ids| ==> ids[i] != ids[j]
  }

  ghost predicate AttemptInv(s: System, id: AttemptId) {
    if id in s.rows.attempts then
      RowInv(s.rows.attempts[id], ViewOf(s.hist, id), s.hist.monotone, s.clock)
    else ViewOf(s.hist, id) == UNTOUCHED
  }

  ghost predicate AttemptsInv(s: System) { forall id :: AttemptInv(s, id) }

  ghost predicate ExecsInv(s: System) { forall e :: e in s.execs ==> ExecInv(s, s.execs[e]) }

  /** No attempt has two owners. */
  ghost predicate OwnersInv(execs: map<ExecId, Exec>) {
    forall e, f :: e in execs && f in execs && e != f && execs[e].phase.Owns().Some? ==>
      execs[e].phase.Owns() != execs[f].phase.Owns()
  }

  ghost predicate CapInv(t: Rows, h: History) {
    && (forall owner :: Pressure(t, owner) <= CapOf(h, owner))
    && (forall owner :: owner in t.policies ==>
          && owner in h.caps && t.policies[owner].maxConcurrency <= h.caps[owner]
          && (owner !in h.lowered ==> t.policies[owner].maxConcurrency == h.caps[owner]))
    && (forall owner :: owner in h.caps ==> owner in t.policies)
  }

  /** Admitted generations never fall and never pass the floor. */
  ghost predicate GrantInv(t: Rows, granted: seq<CredentialRef>) {
    && (forall i :: 0 <= i < |granted| ==> Raises(Some(granted[i].generation), Floor(t, granted[i].id)))
    && (forall i, j :: 0 <= i < j < |granted| && granted[i].id == granted[j].id ==>
          granted[i].generation <= granted[j].generation)
  }

  ghost predicate Inv(s: System) {
    && Consistent(s.rows)
    && AttemptsInv(s)
    && ExecsInv(s)
    && OwnersInv(s.execs)
    && CapInv(s.rows, s.hist)
    && GrantInv(s.rows, s.hist.granted)
    && Distinct(s.hist.invoked)
    && Distinct(s.hist.upstream)
    && (!s.up ==> s.execs == map[])
  }

  // -------------------------------------------------------- one execution's own step

  /** The histories agree about every attempt but one. */
  ghost predicate HistoryLocal(g: History, h: History, id: AttemptId) {
    forall other :: other != id ==> ViewOf(g, other) == ViewOf(h, other)
  }

  ghost predicate RowsLocal(t: Rows, u: Rows, id: AttemptId) {
    && u == t.(attempts := u.attempts)
    && u.attempts.Keys == t.attempts.Keys
    && forall other :: other in t.attempts && other != id ==> u.attempts[other] == t.attempts[other]
  }

  /** What one guarded step owes: its own row, its own phase, and nothing else. */
  ghost predicate LocalStep(s: System, n: System, e: ExecId, id: AttemptId) {
    && e in s.execs && s.execs[e].phase.Owns() == Some(id)
    && e in n.execs && n == s.(rows := n.rows, execs := s.execs[e := n.execs[e]], hist := n.hist)
    && (n.execs[e].phase.Owns() == Some(id) || n.execs[e].phase.Owns() == None)
    && RowsLocal(s.rows, n.rows, id)
    && HistoryLocal(s.hist, n.hist, id)
    && n.hist.granted == s.hist.granted && n.hist.caps == s.hist.caps && n.hist.lowered == s.hist.lowered
    && n.hist.monotone == s.hist.monotone
  }

  lemma LocalAttempts(s: System, n: System, e: ExecId, id: AttemptId)
    requires AttemptsInv(s) && LocalStep(s, n, e, id) && AttemptInv(n, id)
    ensures AttemptsInv(n)
  {
    forall other
      ensures AttemptInv(n, other)
    {
      assert AttemptInv(s, other);
    }
  }

  lemma LocalExecs(s: System, n: System, e: ExecId, id: AttemptId)
    requires ExecsInv(s) && OwnersInv(s.execs) && LocalStep(s, n, e, id) && ExecInv(n, n.execs[e])
    ensures ExecsInv(n)
  {
    forall f | f in n.execs && f != e
      ensures ExecInv(n, n.execs[f])
    {
      assert ExecInv(s, s.execs[f]);
      var x := s.execs[f];
      if x.phase.Owns().Some? {
        assert x.phase.Owns() != s.execs[e].phase.Owns();
        assert ViewOf(s.hist, x.phase.id) == ViewOf(n.hist, x.phase.id);
      }
    }
  }

  lemma LocalOwners(s: System, n: System, e: ExecId, id: AttemptId)
    requires OwnersInv(s.execs) && LocalStep(s, n, e, id)
    ensures OwnersInv(n.execs)
  {
    forall f, g | f in n.execs && g in n.execs && f != g && n.execs[f].phase.Owns().Some?
      ensures n.execs[f].phase.Owns() != n.execs[g].phase.Owns()
    {
      assert f != e ==> n.execs[f] == s.execs[f];
      assert g != e ==> n.execs[g] == s.execs[g];
    }
  }

  lemma CapsReleased(t: Rows, u: Rows, h: History)
    requires CapInv(t, h) && ReleasesOnly(t, u) && u.policies == t.policies
    ensures CapInv(u, h)
  {
    forall owner
      ensures Pressure(u, owner) <= CapOf(h, owner)
    {
      ReleasesLowerPressure(t, u, owner);
    }
  }

  lemma GrantsRise(t: Rows, u: Rows, granted: seq<CredentialRef>)
    requires GrantInv(t, granted) && FloorsRise(t, u)
    ensures GrantInv(u, granted)
  {
    forall i | 0 <= i < |granted|
      ensures Raises(Some(granted[i].generation), Floor(u, granted[i].id))
    {
      assert Raises(Some(granted[i].generation), Floor(t, granted[i].id));
      assert Raises(Floor(t, granted[i].id), Floor(u, granted[i].id));
    }
  }

  lemma LocalRest(s: System, n: System, e: ExecId, id: AttemptId)
    requires CapInv(s.rows, s.hist) && GrantInv(s.rows, s.hist.granted) && LocalStep(s, n, e, id)
    requires Evolves(s.rows, n.rows) && ReleasesOnly(s.rows, n.rows)
    ensures CapInv(n.rows, n.hist) && GrantInv(n.rows, n.hist.granted) && n.up == s.up
  {
    CapsReleased(s.rows, n.rows, s.hist);
    SameCaps(n.rows, s.hist, n.hist);
    GrantsRise(s.rows, n.rows, s.hist.granted);
    hide CapInv, GrantInv;
  }

  lemma SameCaps(t: Rows, g: History, h: History)
    requires CapInv(t, g) && h.caps == g.caps && h.lowered == g.lowered
    ensures CapInv(t, h)
  {
  }

  /** The frame argument, once for all guarded steps. */
  lemma LocalKeeps(s: System, n: System, e: ExecId, id: AttemptId)
    requires Inv(s) && s.up && LocalStep(s, n, e, id)
    requires Consistent(n.rows) && Evolves(s.rows, n.rows) && ReleasesOnly(s.rows, n.rows)
    requires AttemptInv(n, id) && ExecInv(n, n.execs[e])
    requires Distinct(n.hist.invoked) && Distinct(n.hist.upstream)
    ensures Inv(n)
  {
    hide LocalStep, AttemptsInv, ExecsInv, OwnersInv, Consistent, AttemptInv, ExecInv, CapInv, GrantInv, Evolves, Distinct;
    LocalAttempts(s, n, e, id);
    LocalExecs(s, n, e, id);
    LocalOwners(s, n, e, id);
    LocalRest(s, n, e, id);
  }
}
