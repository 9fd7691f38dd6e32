/** What every interleaving of the rail keeps. */
module RailSafety {
  import opened Substrate
  import opened Decisions
  import opened DirectorProof
  import opened ClassGrants
  import opened Rail

  /* ------------------------------------------------------------------ the truth of an authority claim */

  ghost predicate ConfirmedByDirector(h: Hash, db: Store, d: Decision, answer: Answer, ref: AuthorityRef) {
    && ref.ProofRef? && ref.id in db.confirmations
    && var c := db.confirmations[ref.id].row;
       BoundTo(c, Expected(h, d, answer))
       && c.answeredBy.Some? && c.answeredBy.value in db.signals && db.signals[c.answeredBy.value].capturedBy.role == "director"
  }

  ghost predicate SignalledByProxy(db: Store, d: Decision, ref: AuthorityRef) {
    ref.ProofRef? && ref.id in db.signals && !PlanRequiresConfirmation(d.plan)
  }

  ghost predicate CoveredByGrant(db: Store, d: Decision, ref: AuthorityRef) {
    && ref.GrantAtVersion? && ref.grantId in db.grants
    && var g := db.grants[ref.grantId].row;
       g.version == ref.version && Covers(g, d)
       && d.routedTo.Some? && d.routedTo.value.SelfDisposal? && d.routedTo.value.classGrantRef == Some(ref.grantId)
  }

  /** The claim "`d` is answered with `answer` on the authority of `ref`" is true of the stored rows. */
  ghost predicate Justified(h: Hash, db: Store, d: Decision, mode: AuthorityMode, ref: AuthorityRef, answer: Answer) {
    match mode
    case DirectorDirect => ConfirmedByDirector(h, db, d, answer, ref)
    case DirectorViaProxy => SignalledByProxy(db, d, ref)
    case ClassGrant => CoveredByGrant(db, d, ref)
    case _ => false
  }

  /* ------------------------------------------------------------------ what one step may do to the rest */

  ghost predicate Extends<V>(m: map<string, V>, m': map<string, V>) {
    forall x | x in m :: x in m' && m'[x] == m[x]
  }

  /** How the tables may differ between an earlier and a later moment of one run. */
  ghost predicate Later(db: Store, db': Store) {
    match db
    case Store(rev, decisions, confirmations, grants, signals, ratifications, _, _) =>
      && rev <= db'.rev
      && Advances(decisions, db'.decisions, Grows)
      && Advances(confirmations, db'.confirmations, ConfGrows)
      && Advances(grants, db'.grants, GrantGrows)
      && Extends(signals, db'.signals) && Extends(ratifications, db'.ratifications)
  }

  ghost predicate Onward(w: World, w': World) {
    w'.hash == w.hash && Later(w.db, w'.db) && w.past.resolved <= w'.past.resolved && w.past.acts <= w'.past.acts
  }

  /** Call `k` acted: every other call, every barrier another call holds, and the grant behind such a
      barrier are as they were. */
  ghost predicate Spares(w: World, w': World, k: CallId) {
    && (forall j | j in w.calls && j != k :: j in w'.calls && w'.calls[j] == w.calls[j])
    && (forall j | j in w'.calls && j != k :: j in w.calls)
    && (forall g | g in w.locks && w.locks[g] != k ::
          g in w'.locks && w'.locks[g] == w.locks[g] && (g in w.db.grants ==> g in w'.db.grants && w'.db.grants[g] == w.db.grants[g]))
  }

  lemma LaterTransitive(a: Store, b: Store, c: Store)
    requires Later(a, b) && Later(b, c)
    ensures Later(a, c)
  {
    GrowsTransitive(); ConfGrowsTransitive(); GrantGrowsTransitive();
    AdvancesTransitive(a.decisions, b.decisions, c.decisions, Grows);
    AdvancesTransitive(a.confirmations, b.confirmations, c.confirmations, ConfGrows);
    AdvancesTransitive(a.grants, b.grants, c.grants, GrantGrows);
  }

  /* ------------------------------------------------------------------ the invariant */

  ghost predicate LockedBy(locks: map<string, CallId>, g: string, k: CallId) {
    g in locks && locks[g] == k
  }

  /** The decision read before the gate is still the case that is stored. */
  ghost predicate PreOk(db: Store, id: string, pre: Decision) {
    id in db.decisions && pre.id == id && pre.status == Routed && Grows(pre, db.decisions[id].row)
  }

  /** The gate's verdict on the case it read is true, and a grant it rests on is held live. */
  ghost predicate VerdictOk(w: World, k: CallId, id: string, v: Verb, before: Option<Decision>)
    requires v.Resolve?
  {
    && before.Some? && PreOk(w.db, id, before.value) && Justified(w.hash, w.db, before.value, v.mode, v.ref, v.answer)
    && (v.mode == ClassGrant ==>
          v.ref.GrantAtVersion? && v.ref.grantId in w.db.grants
          && LockedBy(w.locks, v.ref.grantId, k) && w.db.grants[v.ref.grantId].row.state == Active)
  }

  ghost predicate VerbOk(w: World, k: CallId, id: string, v: Verb, before: Option<Decision>) {
    match v
    case Resolve(_, _, _, _, _) => VerdictOk(w, k, id, v, before)
    case Merge(_, into, _) => into != id && into in w.db.decisions
    case Dispose(_, reason) => !Blank(reason)
    case Curate(_, _, _, _) => before.Some? ==> id in w.db.decisions && Grows(before.value, w.db.decisions[id].row)
    case _ => true
  }

  ghost predicate GrantOpOk(db: Store, gid: string, op: GrantOp) {
    op.MarkSuperseded? ==> op.successor in db.grants && db.grants[op.successor].row.supersedes == Some(gid)
  }

  ghost predicate BarrierOk(locks: map<string, CallId>, k: CallId, req: ResolveRequest) {
    UnderGrant(req) ==> LockedBy(locks, req.ref.value, k)
  }

  ghost predicate RatifiedBy(h: Hash, db: Store, ref: string, spec: Spec, at: int) {
    ref in db.decisions && Ratifies(h, db.decisions[ref].row, spec) && db.decisions[ref].row.resolution.value.resolvedAt == at
  }

  ghost predicate VersionOk(db: Store, supersedes: Option<string>, version: nat) {
    if !Cites(supersedes) then version == 1
    else supersedes.value in db.grants && version == db.grants[supersedes.value].row.version + 1
  }

  ghost predicate MintOk(h: Hash, db: Store, m: MintRequest, at: int) {
    RatifiedBy(h, db, m.ratificationRef, m.spec, at) && Consistent(m.spec)
  }

  ghost predicate SpentOn(db: Store, ref: string, gid: string) {
    ref in db.ratifications && db.ratifications[ref] == gid
  }

  /** What each call in flight may rely on. */
  ghost predicate CallOk(w: World, k: CallId, c: Call) {
    match c
    case RawOwed(id, _) => id in w.db.decisions
    case Ready(id, v, before) => VerbOk(w, k, id, v, before)
    case Loaded(id, v, before, seen, _) => VerbOk(w, k, id, v, before) && Seen(w.db.decisions, id, seen, Grows) && Allowed(seen.row, v)
    case TrailOwed(a, _, _) => a < |w.past.acts|
    case ConfReady(_, _) => true
    case ConfLoaded(id, op, seen, now) => Seen(w.db.confirmations, id, seen, ConfGrows) && ConfAllowed(seen.row, op, now)
    case GrantQueued(g, op) => GrantOpOk(w.db, g, op)
    case GrantReady(g, op) => GrantOpOk(w.db, g, op) && LockedBy(w.locks, g, k)
    case GrantLoaded(g, op, seen) =>
      GrantOpOk(w.db, g, op) && LockedBy(w.locks, g, k) && Seen(w.db.grants, g, seen, GrantGrows) && seen.row.state == Active
    case ResolveQueued(_) => true
    case ResolveStart(req) => BarrierOk(w.locks, k, req)
    case ResolvePre(req, pre) => BarrierOk(w.locks, k, req) && PreOk(w.db, req.id, pre)
    case ResolveAnswered(req, pre, conf) =>
      PreOk(w.db, req.id, pre) && req.ref.Some? && req.ref.value in w.db.confirmations
      && ConfGrows(conf, w.db.confirmations[req.ref.value].row)
    case MintRatified(m, at) => MintOk(w.hash, w.db, m, at)
    case MintChecked(m, at, version) => MintOk(w.hash, w.db, m, at) && VersionOk(w.db, m.supersedes, version)
    case MintConsumed(m, at, version, gid) =>
      MintOk(w.hash, w.db, m, at) && VersionOk(w.db, m.supersedes, version) && SpentOn(w.db, m.ratificationRef, gid) && "grant-" <= gid
  }

  ghost predicate DecisionOk(h: Hash, db: Store, id: string) {
    id in db.decisions && var d := db.decisions[id].row;
    && d.id == id && WellFormed(d)
    && (d.resolution.Some? ==> var r := d.resolution.value; Justified(h, db, d, r.mode, r.ref, r.answer))
    && (d.mergedInto.Some? ==> d.mergedInto.value != id && d.mergedInto.value in db.decisions)
    && (d.disposedReason.Some? ==> !Blank(d.disposedReason.value))
  }

  /** The grant came from a ratification that names this very spec, for the period it runs. */
  ghost predicate Delegated(h: Hash, db: Store, g: Grant) {
    exists days :: RatifiedBy(h, db, g.ratificationRef, SpecOf(g, days), g.representationDue - days * DAY_MS)
  }

  ghost predicate GrantOk(h: Hash, db: Store, id: string) {
    id in db.grants && var g := db.grants[id].row;
    && g.id == id && "grant-" <= id && SpentOn(db, g.ratificationRef, id)
    && Delegated(h, db, g) && Consistent(SpecOf(g, 0))
    && VersionOk(db, g.supersedes, g.version)
    && (g.state == Superseded <==> g.supersededBy.Some?)
    && (g.supersededBy.Some? ==> g.supersededBy.value in db.grants && db.grants[g.supersededBy.value].row.supersedes == Some(id))
  }

  ghost predicate SettledOk(db: Store, s: Settled) {
    && s.id in db.decisions && db.decisions[s.id].row.resolution == Some(s.resolution)
    && (s.resolution.mode == ClassGrant ==> s.grantActive)
  }

  ghost predicate Logged(log: seq<Settled>, id: string) {
    exists i :: 0 <= i < |log| && log[i].id == id
  }

  /** The history of committed resolutions: one per resolved decision, each made under a live grant
      if it was made under a grant at all. */
  ghost predicate ResolvedOk(db: Store, log: seq<Settled>) {
    && (forall i {:trigger SettledOk(db, log[i])} | 0 <= i < |log| :: SettledOk(db, log[i]))
    && (forall i, j | 0 <= i < j < |log| :: log[i].id != log[j].id)
    && (forall id {:trigger Logged(log, id)} | id in db.decisions && db.decisions[id].row.resolution.Some? :: Logged(log, id))
  }

  ghost predicate BoundedStore(db: Store) {
    Bounded(db.decisions, db.rev) && Bounded(db.confirmations, db.rev) && Bounded(db.grants, db.rev)
  }

  ghost predicate Inv(w: World) {
    match w
    case World(h, db, _, calls, past) =>
      && BoundedStore(db)
      && (forall id {:trigger DecisionOk(h, db, id)} | id in db.decisions :: DecisionOk(h, db, id))
      && (forall id {:trigger GrantOk(h, db, id)} | id in db.grants :: GrantOk(h, db, id))
      && (forall k {:trigger CallOk(w, k, calls[k])} | k in calls :: CallOk(w, k, calls[k]))
      && ResolvedOk(db, past.resolved)
  }

  /** A step is safe when it moves the world onward, spares the other calls, and keeps the invariant. */
  ghost predicate Safe(w: World, w': World, k: CallId) {
    match w
    case World(_, _, _, _, _) => Onward(w, w') && Spares(w, w', k) && Inv(w')
  }

  /* ------------------------------------------------------------------ facts outlive other callers' steps */

  lemma JustifiedStable(h: Hash, db: Store, db': Store, d: Decision, mode: AuthorityMode, ref: AuthorityRef, answer: Answer)
    requires Later(db, db') && Justified(h, db, d, mode, ref, answer)
    ensures Justified(h, db', d, mode, ref, answer)
  {
  }

  /** The gate looks at the case only, so its verdict carries over to any row with the same case. */
  lemma JustifiedByCase(h: Hash, db: Store, d: Decision, e: Decision, mode: AuthorityMode, ref: AuthorityRef, answer: Answer)
    requires SameCase(d, e) && Justified(h, db, d, mode, ref, answer)
    ensures Justified(h, db, e, mode, ref, answer)
  {
  }

  lemma PreStable(db: Store, db': Store, id: string, pre: Decision)
    requires Later(db, db') && id in db.decisions && Grows(pre, db.decisions[id].row)
    ensures id in db'.decisions && Grows(pre, db'.decisions[id].row)
  {
    GrowsTransitive();
  }

  lemma DecisionSeenStable(db: Store, db': Store, id: string, seen: Versioned<Decision>)
    requires Later(db, db') && Seen(db.decisions, id, seen, Grows)
    ensures Seen(db'.decisions, id, seen, Grows)
  {
    GrowsTransitive();
    SeenStable(db.decisions, db'.decisions, id, seen, Grows);
  }

  lemma ConfirmationSeenStable(db: Store, db': Store, id: string, seen: Versioned<Confirmation>)
    requires Later(db, db') && Seen(db.confirmations, id, seen, ConfGrows)
    ensures Seen(db'.confirmations, id, seen, ConfGrows)
  {
    ConfGrowsTransitive();
    SeenStable(db.confirmations, db'.confirmations, id, seen, ConfGrows);
  }

  lemma GrantSeenStable(db: Store, db': Store, id: string, seen: Versioned<Grant>)
    requires Later(db, db') && Seen(db.grants, id, seen, GrantGrows)
    ensures Seen(db'.grants, id, seen, GrantGrows)
  {
    GrantGrowsTransitive();
    SeenStable(db.grants, db'.grants, id, seen, GrantGrows);
  }

  lemma VerbStable(w: World, w': World, k: CallId, j: CallId, id: string, v: Verb, before: Option<Decision>)
    requires Onward(w, w') && Spares(w, w', k) && j != k && VerbOk(w, j, id, v, before)
    ensures VerbOk(w', j, id, v, before)
  {
    if before.Some? && (v.Resolve? || v.Curate?) {
      PreStable(w.db, w'.db, id, before.value);
    }
    if v.Resolve? {
      JustifiedStable(w.hash, w.db, w'.db, before.value, v.mode, v.ref, v.answer);
    }
  }

  lemma VerbCallStable(w: World, w': World, k: CallId, j: CallId, c: Call)
    requires Onward(w, w') && Spares(w, w', k) && j != k && CallOk(w, j, c) && (c.Ready? || c.Loaded?)
    ensures CallOk(w', j, c)
  {
    VerbStable(w, w', k, j, c.id, c.verb, c.before);
    if c.Loaded? { DecisionSeenStable(w.db, w'.db, c.id, c.seen); }
  }

  lemma GrantCallStable(w: World, w': World, k: CallId, j: CallId, c: Call)
    requires Onward(w, w') && Spares(w, w', k) && j != k && CallOk(w, j, c) && (c.GrantQueued? || c.GrantReady? || c.GrantLoaded?)
    ensures CallOk(w', j, c)
  {
    if c.GrantLoaded? { GrantSeenStable(w.db, w'.db, c.gid, c.gseen); }
  }

  lemma ResolveCallStable(w: World, w': World, k: CallId, j: CallId, c: Call)
    requires Onward(w, w') && Spares(w, w', k) && j != k && CallOk(w, j, c) && (c.ResolveStart? || c.ResolvePre? || c.ResolveAnswered?)
    ensures CallOk(w', j, c)
  {
    if !c.ResolveStart? { PreStable(w.db, w'.db, c.req.id, c.pre); }
    if c.ResolveAnswered? { ConfGrowsTransitive(); }
  }

  lemma MintStable(h: Hash, db: Store, db': Store, m: MintRequest, at: int)
    requires Later(db, db') && MintOk(h, db, m, at)
    ensures MintOk(h, db', m, at)
  {
  }

  lemma MintCallStable(w: World, w': World, j: CallId, c: Call)
    requires Onward(w, w') && CallOk(w, j, c) && (c.MintRatified? || c.MintChecked? || c.MintConsumed?)
    ensures CallOk(w', j, c)
  {
    MintStable(w.hash, w.db, w'.db, c.mint, c.resolvedAt);
  }

  /** Whatever another call did, what this one knows is still so. */
  lemma CallStable(w: World, w': World, k: CallId, j: CallId, c: Call)
    requires Onward(w, w') && Spares(w, w', k) && j != k && CallOk(w, j, c)
    ensures CallOk(w', j, c)
  {
    if c.Ready? || c.Loaded? { VerbCallStable(w, w', k, j, c); }
    else if c.GrantQueued? || c.GrantReady? || c.GrantLoaded? { GrantCallStable(w, w', k, j, c); }
    else if c.ResolveStart? || c.ResolvePre? || c.ResolveAnswered? { ResolveCallStable(w, w', k, j, c); }
    else if c.MintRatified? || c.MintChecked? || c.MintConsumed? { MintCallStable(w, w', j, c); }
    else if c.ConfLoaded? { ConfirmationSeenStable(w.db, w'.db, c.cid, c.cseen); }
  }

  /** A decision row a step did not touch stays as good as it was. */
  lemma DecisionStable(h: Hash, db: Store, db': Store, id: string)
    requires Later(db, db') && DecisionOk(h, db, id) && db'.decisions[id].row == db.decisions[id].row
    ensures DecisionOk(h, db', id)
  {
    var d := db.decisions[id].row;
    if d.resolution.Some? {
      var r := d.resolution.value;
      JustifiedStable(h, db, db', d, r.mode, r.ref, r.answer);
    }
  }

  lemma DelegatedStable(h: Hash, db: Store, db': Store, g: Grant)
    requires Later(db, db') && Delegated(h, db, g)
    ensures Delegated(h, db', g)
  {
    var days :| RatifiedBy(h, db, g.ratificationRef, SpecOf(g, days), g.representationDue - days * DAY_MS);
    assert RatifiedBy(h, db', g.ratificationRef, SpecOf(g, days), g.representationDue - days * DAY_MS);
  }

  lemma GrantStable(h: Hash, db: Store, db': Store, id: string)
    requires Later(db, db') && GrantOk(h, db, id) && db'.grants[id].row == db.grants[id].row
    ensures GrantOk(h, db', id)
  {
    DelegatedStable(h, db, db', db.grants[id].row);
  }

  /* ------------------------------------------------------------------ every step keeps the invariant */

  /** What is left to show of a step once the rows it did not touch are set aside. */
  lemma Settle(w: World, w': World, k: CallId)
    requires Inv(w) && Onward(w, w') && Spares(w, w', k) && BoundedStore(w'.db)
    requires forall id | id in w'.db.decisions && (id in w.db.decisions ==> w'.db.decisions[id].row != w.db.decisions[id].row) ::
               DecisionOk(w'.hash, w'.db, id)
    requires forall id | id in w'.db.grants && (id in w.db.grants ==> w'.db.grants[id].row != w.db.grants[id].row) ::
               GrantOk(w'.hash, w'.db, id)
    requires k in w'.calls ==> CallOk(w', k, w'.calls[k])
    requires ResolvedOk(w'.db, w'.past.resolved)
    ensures Safe(w, w', k)
  {
    forall id | id in w'.db.decisions ensures DecisionOk(w'.hash, w'.db, id) {
      if id in w.db.decisions && w'.db.decisions[id].row == w.db.decisions[id].row {
        assert DecisionOk(w.hash, w.db, id);
        DecisionStable(w.hash, w.db, w'.db, id);
      }
    }
    forall id | id in w'.db.grants ensures GrantOk(w'.hash, w'.db, id) {
      if id in w.db.grants && w'.db.grants[id].row == w.db.grants[id].row {
        assert GrantOk(w.hash, w.db, id);
        GrantStable(w.hash, w.db, w'.db, id);
      }
    }
    forall j | j in w'.calls ensures CallOk(w', j, w'.calls[j]) {
      if j != k {
        assert CallOk(w, j, w.calls[j]);
        CallStable(w, w', k, j, w.calls[j]);
      }
    }
  }

  /** One decision row was written. */
  lemma SettleDecision(w: World, w': World, k: CallId, id: string)
    requires Inv(w) && w'.hash == w.hash && Later(w.db, w'.db) && Spares(w, w', k) && BoundedStore(w'.db)
    requires w.past.resolved <= w'.past.resolved && w.past.acts <= w'.past.acts
    requires id in w'.db.decisions && w'.db.decisions == w.db.decisions[id := w'.db.decisions[id]] && w'.db.grants == w.db.grants
    requires DecisionOk(w'.hash, w'.db, id)
    requires k in w'.calls ==> CallOk(w', k, w'.calls[k])
    requires ResolvedOk(w'.db, w'.past.resolved)
    ensures Safe(w, w', k)
  {
    Settle(w, w', k);
  }

  /** One grant row was written. */
  lemma SettleGrant(w: World, w': World, k: CallId, id: string)
    requires Inv(w) && w'.hash == w.hash && Later(w.db, w'.db) && Spares(w, w', k) && BoundedStore(w'.db) && w'.past == w.past
    requires id in w'.db.grants && w'.db.grants == w.db.grants[id := w'.db.grants[id]] && w'.db.decisions == w.db.decisions
    requires GrantOk(w'.hash, w'.db, id)
    requires k in w'.calls ==> CallOk(w', k, w'.calls[k])
    ensures Safe(w, w', k)
  {
    SameRowsResolved(w.db, w'.db, w.past.resolved);
    Settle(w, w', k);
  }

  /** Nothing but calls, barriers, the trail and the history moved. */
  ghost predicate SameRows(w: World, w': World) {
    && w'.hash == w.hash && w'.db == w.db.(raws := w'.db.raws, records := w'.db.records)
    && w'.past.resolved == w.past.resolved && w.past.acts <= w'.past.acts
  }

  lemma SameRowsResolved(db: Store, db': Store, log: seq<Settled>)
    requires ResolvedOk(db, log) && db'.decisions == db.decisions
    ensures ResolvedOk(db', log)
  {
    forall i | 0 <= i < |log| ensures SettledOk(db', log[i]) {
      assert SettledOk(db, log[i]);
    }
    forall id | id in db'.decisions && db'.decisions[id].row.resolution.Some? ensures Logged(log, id) {
      assert Logged(log, id);
    }
  }

  lemma SettleCalls(w: World, w': World, k: CallId)
    requires Inv(w) && SameRows(w, w') && Spares(w, w', k)
    requires k in w'.calls ==> CallOk(w', k, w'.calls[k])
    ensures Safe(w, w', k)
  {
    SameRowsResolved(w.db, w'.db, w.past.resolved);
    Settle(w, w', k);
  }

  lemma FinishSafe(w: World, w': World, k: CallId)
    requires Inv(w) && SameRows(w, w')
    requires k in w.calls && w'.calls == w.calls - {k} && w'.locks == Unlock(w.locks, w.calls[k], k)
    ensures Safe(w, w', k)
  {
    SettleCalls(w, w', k);
  }

  lemma EnterSafe(w: World, w': World, k: CallId, c: Call)
    requires Inv(w) && SameRows(w, w')
    requires w'.calls == w.calls[k := c] && w'.locks == w.locks && CallOk(w', k, c)
    ensures Safe(w, w', k)
  {
    SettleCalls(w, w', k);
  }

  lemma FreshIsWellFormed(id: string, input: RaiseInput, now: int)
    ensures WellFormed(Fresh(id, input, now))
  {
  }

  lemma NewRowResolved(db: Store, db': Store, log: seq<Settled>, id: string, d: Versioned<Decision>)
    requires ResolvedOk(db, log) && id !in db.decisions && db'.decisions == db.decisions[id := d] && d.row.resolution == None
    ensures ResolvedOk(db', log)
  {
    forall i | 0 <= i < |log| ensures SettledOk(db', log[i]) {
      assert SettledOk(db, log[i]);
    }
    forall j | j in db'.decisions && db'.decisions[j].row.resolution.Some? ensures Logged(log, j) {
      assert Logged(log, j);
    }
  }

  lemma NewDecisionLater(db: Store, db': Store, id: string, d: Decision)
    requires BoundedStore(db) && id !in db.decisions
    requires db' == db.(decisions := db.decisions[id := Versioned(d, db.rev + 1)], rev := db.rev + 1)
    ensures Later(db, db') && BoundedStore(db')
  {
    GrowsTransitive(); ConfGrowsTransitive(); GrantGrowsTransitive();
  }

  lemma BoundedNow(w: World)
    requires Inv(w)
    ensures BoundedStore(w.db)
  {
  }

  lemma RaiseSafe(w: World, k: CallId, id: string, input: RaiseInput, rawId: string, now: int)
    requires Inv(w) && k !in w.calls && id !in w.db.decisions
    ensures Safe(w, DoRaise(w, k, id, input, rawId, now), k)
  {
    var w' := DoRaise(w, k, id, input, rawId, now);
    FreshIsWellFormed(id, input, now);
    BoundedNow(w);
    NewDecisionLater(w.db, w'.db, id, Fresh(id, input, now));
    NewRowResolved(w.db, w'.db, w.past.resolved, id, w'.db.decisions[id]);
    SettleDecision(w, w', k, id);
  }

  lemma ReadyOk(w: World, k: CallId)
    requires Inv(w) && k in w.calls && w.calls[k].Ready?
    ensures var c := w.calls[k]; VerbOk(w, k, c.id, c.verb, c.before)
  {
    assert CallOk(w, k, w.calls[k]);
  }

  lemma VerbHere(w: World, w': World, k: CallId, id: string, v: Verb, before: Option<Decision>)
    requires SameRows(w, w') && w'.locks == w.locks && VerbOk(w, k, id, v, before)
    ensures VerbOk(w', k, id, v, before)
  {
  }

  lemma JustSeen(db: Store, id: string)
    requires id in db.decisions
    ensures Seen(db.decisions, id, db.decisions[id], Grows)
  {
  }

  lemma LoadedOk(w: World, w': World, k: CallId, id: string, v: Verb, before: Option<Decision>, now: int)
    requires SameRows(w, w') && w'.locks == w.locks && VerbOk(w, k, id, v, before)
    requires id in w.db.decisions && Allowed(w.db.decisions[id].row, v)
    ensures CallOk(w', k, Loaded(id, v, before, w.db.decisions[id], now))
  {
    VerbHere(w, w', k, id, v, before);
    JustSeen(w'.db, id);
  }

  lemma LoadSafe(w: World, k: CallId, now: int)
    requires Inv(w) && k in w.calls && w.calls[k].Ready?
    ensures Safe(w, DoLoad(w, k, now), k)
  {
    var c := w.calls[k];
    var w' := DoLoad(w, k, now);
    ReadyOk(w, k);
    if c.id !in w.db.decisions || !Allowed(w.db.decisions[c.id].row, c.verb) {
      FinishSafe(w, w', k);
    } else {
      LoadedOk(w, w', k, c.id, c.verb, c.before, now);
      EnterSafe(w, w', k, Loaded(c.id, c.verb, c.before, w.db.decisions[c.id], now));
    }
  }

  lemma OwedOk(w: World, k: CallId)
    requires Inv(w) && k in w.calls && w.calls[k].TrailOwed?
    ensures w.calls[k].act < |w.past.acts|
  {
    assert CallOk(w, k, w.calls[k]);
  }

  lemma TrailSafe(w: World, k: CallId, recordId: string, now: int)
    requires Inv(w) && k in w.calls && w.calls[k].TrailOwed?
    ensures Safe(w, DoWriteTrail(w, k, recordId, now), k)
  {
    OwedOk(w, k);
    if w.calls[k].own.Some? { FinishSafe(w, DoWriteTrail(w, k, recordId, now), k); } else { SettleIdle(w, k); }
  }

  lemma RawReadSafe(w: World, k: CallId)
    requires Inv(w)
    ensures Safe(w, DoReadTargetRaw(w, k), k) && Safe(w, DoReadOwnRaw(w, k), k)
  {
    hide Inv, Safe;
    SettleIdle(w, k);
    if k in w.calls && w.calls[k].TrailOwed? {
      OwedOk(w, k);
      var t, o := DoReadTargetRaw(w, k), DoReadOwnRaw(w, k);
      if t != w { EnterSafe(w, t, k, t.calls[k]); }
      if o != w { EnterSafe(w, o, k, o.calls[k]); }
    }
  }

  /* ---------------------------------------------------------------- committing a decision */

  lemma LoadedKnows(w: World, k: CallId)
    requires Inv(w) && k in w.calls && w.calls[k].Loaded?
    ensures var c := w.calls[k];
            VerbOk(w, k, c.id, c.verb, c.before) && Seen(w.db.decisions, c.id, c.seen, Grows) && Allowed(c.seen.row, c.verb)
            && DecisionOk(w.hash, w.db, c.id)
  {
    assert CallOk(w, k, w.calls[k]);
    assert DecisionOk(w.hash, w.db, w.calls[k].id);
  }

  lemma UpdateDecisionLater(db: Store, db': Store, id: string, next: Decision)
    requires BoundedStore(db) && id in db.decisions && Grows(db.decisions[id].row, next)
    requires db' == db.(decisions := db.decisions[id := Versioned(next, db.rev + 1)], rev := db.rev + 1)
    ensures Later(db, db') && BoundedStore(db')
  {
    GrowsTransitive(); ConfGrowsTransitive(); GrantGrowsTransitive();
  }

  /** Between the gate's read and the commit the case cannot have changed: the row is routed at both
      moments, and a routed row can neither be edited nor left and entered again. */
  lemma CaseIsFrozen(pre: Decision, now: Decision)
    requires pre.status == Routed && Grows(pre, now) && now.status == Routed
    ensures SameCase(pre, now)
  {
  }

  lemma CommittedRowJustified(w: World, k: CallId, id: string, v: Verb, before: Option<Decision>, now: int)
    requires VerbOk(w, k, id, v, before) && DecisionOk(w.hash, w.db, id) && Allowed(w.db.decisions[id].row, v)
    ensures var e := Transform(w.db.decisions[id].row, v, now);
            e.resolution.Some? ==> var r := e.resolution.value; Justified(w.hash, w.db, e, r.mode, r.ref, r.answer)
  {
    var d := w.db.decisions[id].row;
    var e := Transform(d, v, now);
    if v.Resolve? {
      CaseIsFrozen(before.value, d);
      JustifiedByCase(w.hash, w.db, before.value, e, v.mode, v.ref, v.answer);
    } else if e.resolution.Some? {
      var r := d.resolution.value;
      JustifiedByCase(w.hash, w.db, d, e, r.mode, r.ref, r.answer);
    }
  }

  lemma CommittedRowOk(w: World, db': Store, k: CallId, id: string, v: Verb, before: Option<Decision>, now: int)
    requires VerbOk(w, k, id, v, before) && DecisionOk(w.hash, w.db, id) && Allowed(w.db.decisions[id].row, v)
    requires Later(w.db, db') && id in db'.decisions && db'.decisions[id].row == Transform(w.db.decisions[id].row, v, now)
    ensures DecisionOk(w.hash, db', id)
  {
    var e := db'.decisions[id].row;
    TransformGrows(w.db.decisions[id].row, v, now);
    CommittedRowJustified(w, k, id, v, before, now);
    if e.resolution.Some? {
      var r := e.resolution.value;
      JustifiedStable(w.hash, w.db, db', e, r.mode, r.ref, r.answer);
    }
  }

  lemma UnresolvedCommitLogged(db: Store, db': Store, log: seq<Settled>, id: string, next: Versioned<Decision>)
    requires ResolvedOk(db, log) && id in db.decisions && db'.decisions == db.decisions[id := next]
    requires next.row.resolution == db.decisions[id].row.resolution
    ensures ResolvedOk(db', log)
  {
    forall i | 0 <= i < |log| ensures SettledOk(db', log[i]) {
      assert SettledOk(db, log[i]);
    }
    forall j | j in db'.decisions && db'.decisions[j].row.resolution.Some? ensures Logged(log, j) {
      assert Logged(log, j);
    }
  }

  lemma LoggedExtends(log: seq<Settled>, s: Settled, id: string)
    requires Logged(log, id)
    ensures Logged(log + [s], id)
  {
    var i :| 0 <= i < |log| && log[i].id == id;
    assert (log + [s])[i].id == id;
  }

  lemma ResolveCommitLogged(db: Store, db': Store, log: seq<Settled>, next: Versioned<Decision>, s: Settled)
    requires ResolvedOk(db, log) && s.id in db.decisions && db.decisions[s.id].row.resolution == None
    requires db'.decisions == db.decisions[s.id := next] && next.row.resolution == Some(s.resolution)
    requires s.resolution.mode == ClassGrant ==> s.grantActive
    ensures ResolvedOk(db', log + [s])
  {
    var log' := log + [s];
    forall i | 0 <= i < |log| ensures log[i].id != s.id && SettledOk(db', log[i]) {
      assert SettledOk(db, log[i]);
    }
    forall i | 0 <= i < |log'| ensures SettledOk(db', log'[i]) {
      assert i < |log| ==> SettledOk(db', log[i]);
    }
    forall j | j in db'.decisions && db'.decisions[j].row.resolution.Some? ensures Logged(log', j) {
      if j == s.id {
        assert log'[|log|].id == j;
      } else {
        assert Logged(log, j);
        LoggedExtends(log, s, j);
      }
    }
  }

  /** The row before and after a commit, and what is known of the world in which it happened. */
  lemma CommitRows(w: World, k: CallId, db': Store)
    requires Inv(w) && k in w.calls && w.calls[k].Loaded? && w.calls[k].id in w.db.decisions
    requires w.db.decisions[w.calls[k].id].rev == w.calls[k].seen.rev
    requires Allowed(w.calls[k].seen.row, w.calls[k].verb)
    requires var c := w.calls[k];
             db' == w.db.(decisions := w.db.decisions[c.id := Versioned(Transform(c.seen.row, c.verb, c.now), w.db.rev + 1)], rev := w.db.rev + 1)
    ensures w.db.decisions[w.calls[k].id] == w.calls[k].seen
    ensures Later(w.db, db') && BoundedStore(db') && DecisionOk(w.hash, db', w.calls[k].id)
  {
    var c := w.calls[k];
    LoadedKnows(w, k);
    TransformGrows(c.seen.row, c.verb, c.now);
    BoundedNow(w);
    UpdateDecisionLater(w.db, db', c.id, Transform(c.seen.row, c.verb, c.now));
    CommittedRowOk(w, db', k, c.id, c.verb, c.before, c.now);
  }

  lemma VerdictOf(w: World, k: CallId)
    requires Inv(w) && k in w.calls && w.calls[k].Loaded? && w.calls[k].verb.Resolve?
    ensures var c := w.calls[k]; VerdictOk(w, k, c.id, c.verb, c.before)
  {
    assert CallOk(w, k, w.calls[k]);
  }

  /** What a successful commit leaves behind besides the row. */
  lemma AfterCommitShape(w: World, k: CallId, id: string, v: Verb, before: Option<Decision>, next: Decision)
    requires k in w.calls && (v.Resolve? ==> next.resolution.Some?)
    ensures var w' := AfterCommit(w, k, id, v, before, next);
            && w'.hash == w.hash && w'.db == w.db && Spares(w, w', k) && w.past.acts <= w'.past.acts
            && (k in w'.calls ==> w'.calls[k] == TrailOwed(|w.past.acts|, None, None) && |w.past.acts| < |w'.past.acts|)
            && (if v.Resolve? then w'.past.resolved == w.past.resolved + [Settled(id, next.resolution.value, GrantActive(w, v.ref))]
                else w'.past.resolved == w.past.resolved)
  {
  }

  lemma CommitLog(w: World, k: CallId, db': Store, next: Versioned<Decision>)
    requires Inv(w) && k in w.calls && w.calls[k].Loaded? && w.calls[k].id in w.db.decisions && Allowed(w.calls[k].seen.row, w.calls[k].verb)
    requires var c := w.calls[k]; w.db.decisions[c.id] == c.seen
    requires var c := w.calls[k]; next.row == Transform(c.seen.row, c.verb, c.now) && db'.decisions == w.db.decisions[c.id := next]
    ensures var c := w.calls[k];
            ResolvedOk(db', if c.verb.Resolve? then w.past.resolved + [Settled(c.id, next.row.resolution.value, GrantActive(w, c.verb.ref))]
                            else w.past.resolved)
  {
    var c := w.calls[k];
    LoadedKnows(w, k);
    if c.verb.Resolve? {
      VerdictOf(w, k);
      ResolveCommitLogged(w.db, db', w.past.resolved, next, Settled(c.id, next.row.resolution.value, GrantActive(w, c.verb.ref)));
    } else {
      UnresolvedCommitLogged(w.db, db', w.past.resolved, c.id, next);
    }
  }

  lemma CommitLost(w: World, k: CallId)
    requires Inv(w) && k in w.calls && w.calls[k].Loaded?
    ensures var c := w.calls[k]; Safe(w, At(w, k, Ready(c.id, c.verb, c.before)), k)
  {
    var c := w.calls[k];
    LoadedKnows(w, k);
    var w' := At(w, k, Ready(c.id, c.verb, c.before));
    VerbHere(w, w', k, c.id, c.verb, c.before);
    EnterSafe(w, w', k, Ready(c.id, c.verb, c.before));
  }

  lemma SparesThrough(w: World, u: World, w': World, k: CallId)
    requires Spares(u, w', k) && u.calls == w.calls && u.locks == w.locks && u.db.grants == w.db.grants
    ensures Spares(w, w', k)
  {
  }

  /** The world right after a commit's write, before the call moves on. */
  function Written(w: World, c: Call): World
    requires c.Loaded? && Allowed(c.seen.row, c.verb)
  {
    Put(w, w.db.(decisions := w.db.decisions[c.id := Versioned(Transform(c.seen.row, c.verb, c.now), w.db.rev + 1)]))
  }

  lemma CommitWon(w: World, k: CallId)
    requires Inv(w) && k in w.calls && w.calls[k].Loaded? && w.calls[k].id in w.db.decisions
    requires w.db.decisions[w.calls[k].id].rev == w.calls[k].seen.rev && Allowed(w.calls[k].seen.row, w.calls[k].verb)
    ensures var c := w.calls[k];
            Safe(w, AfterCommit(Written(w, c), k, c.id, c.verb, c.before, Transform(c.seen.row, c.verb, c.now)), k)
  {
    hide Inv, Safe, VerbOk, Seen, Grows, AfterCommit, ResolvedOk;
    var c := w.calls[k];
    var u := Written(w, c);
    var next := u.db.decisions[c.id];
    AfterCommitShape(u, k, c.id, c.verb, c.before, next.row);
    var w' := AfterCommit(u, k, c.id, c.verb, c.before, next.row);
    SparesThrough(w, u, w', k);
    CommitRows(w, k, u.db);
    CommitLog(w, k, u.db, next);
    SettleDecision(w, w', k, c.id);
  }

  lemma CommitSafe(w: World, k: CallId)
    requires Inv(w) && k in w.calls && w.calls[k].Loaded?
    ensures Safe(w, DoCommit(w, k), k)
  {
    hide Inv, Safe, VerbOk, DecisionOk, Seen, Grows, AfterCommit;
    var c := w.calls[k];
    LoadedKnows(w, k);
    if w.db.decisions[c.id].rev == c.seen.rev { CommitWon(w, k); } else { CommitLost(w, k); }
  }

  /* ---------------------------------------------------------------- confirmations and signals */

  lemma ConfLoadedKnows(w: World, k: CallId)
    requires Inv(w) && k in w.calls && w.calls[k].ConfLoaded?
    ensures var c := w.calls[k]; Seen(w.db.confirmations, c.cid, c.cseen, ConfGrows) && ConfAllowed(c.cseen.row, c.cop, c.now)
  {
    assert CallOk(w, k, w.calls[k]);
  }

  /** Only the tables a decision's authority does not live in changed, or rows in them moved onward. */
  lemma SettleProofs(w: World, w': World, k: CallId)
    requires Inv(w) && Onward(w, w') && Spares(w, w', k) && BoundedStore(w'.db)
    requires w'.db.decisions == w.db.decisions && w'.db.grants == w.db.grants && w'.past.resolved == w.past.resolved
    requires k in w'.calls ==> CallOk(w', k, w'.calls[k])
    ensures Safe(w, w', k)
  {
    SameRowsResolved(w.db, w'.db, w.past.resolved);
    Settle(w, w', k);
  }

  lemma ConfWriteLater(db: Store, db': Store, id: string, next: Confirmation)
    requires BoundedStore(db) && (id in db.confirmations ==> ConfGrows(db.confirmations[id].row, next))
    requires db' == db.(confirmations := db.confirmations[id := Versioned(next, db.rev + 1)], rev := db.rev + 1)
    ensures Later(db, db') && BoundedStore(db')
  {
    GrowsTransitive(); ConfGrowsTransitive(); GrantGrowsTransitive();
  }

  lemma ConfLoadSafe(w: World, k: CallId, now: int)
    requires Inv(w) && k in w.calls && w.calls[k].ConfReady?
    ensures Safe(w, DoConfLoad(w, k, now), k)
  {
    var c := w.calls[k];
    var w' := DoConfLoad(w, k, now);
    if c.cid !in w.db.confirmations || !ConfAllowed(w.db.confirmations[c.cid].row, c.cop, now) {
      FinishSafe(w, w', k);
    } else {
      ConfGrowsTransitive();
      EnterSafe(w, w', k, ConfLoaded(c.cid, c.cop, w.db.confirmations[c.cid], now));
    }
  }

  lemma ConfCommitSafe(w: World, k: CallId)
    requires Inv(w) && k in w.calls && w.calls[k].ConfLoaded?
    ensures Safe(w, DoConfCommit(w, k), k)
  {
    var c := w.calls[k];
    var w' := DoConfCommit(w, k);
    ConfLoadedKnows(w, k);
    if w.db.confirmations[c.cid].rev == c.cseen.rev {
      ConfTransformGrows(c.cseen.row, c.cop, c.now);
      BoundedNow(w);
      ConfWriteLater(w.db, w'.db, c.cid, ConfTransform(c.cseen.row, c.cop, c.now));
      SettleProofs(w, w', k);
    } else {
      EnterSafe(w, w', k, ConfReady(c.cid, c.cop));
    }
  }

  lemma MintConfirmationSafe(w: World, k: CallId, id: string, conf: Confirmation)
    requires Inv(w) && id !in w.db.confirmations && k !in w.calls
    ensures Safe(w, DoMintConfirmation(w, id, conf), k)
  {
    var w' := DoMintConfirmation(w, id, conf);
    BoundedNow(w);
    ConfWriteLater(w.db, w'.db, id, conf.(answeredBy := None, consumedAt := None, consumedBy := None));
    SettleProofs(w, w', k);
  }

  lemma SignalLater(db: Store, db': Store, id: string, s: Signal)
    requires BoundedStore(db) && id !in db.signals && db' == db.(signals := db.signals[id := s])
    ensures Later(db, db') && BoundedStore(db')
  {
    GrowsTransitive(); ConfGrowsTransitive(); GrantGrowsTransitive();
  }

  lemma SignalSpares(w: World, k: CallId, id: string, s: Signal)
    requires id !in w.db.signals && k !in w.calls
    ensures var w' := DoMintSignal(w, k, id, s);
            && Spares(w, w', k) && (k in w'.calls ==> w'.calls[k].ConfReady?)
            && w'.db == w.db.(signals := w.db.signals[id := s]) && w'.hash == w.hash && w'.past == w.past
  {
  }

  lemma MintSignalSafe(w: World, k: CallId, id: string, s: Signal)
    requires Inv(w) && id !in w.db.signals && k !in w.calls
    ensures Safe(w, DoMintSignal(w, k, id, s), k)
  {
    hide Inv, Safe, Later, BoundedStore, DoMintSignal;
    BoundedNow(w);
    SignalSpares(w, k, id, s);
    SignalLater(w.db, DoMintSignal(w, k, id, s).db, id, s);
    SettleProofs(w, DoMintSignal(w, k, id, s), k);
  }

  /* ---------------------------------------------------------------- grants */

  lemma GrantCallKnows(w: World, k: CallId)
    requires Inv(w) && k in w.calls && (w.calls[k].GrantQueued? || w.calls[k].GrantReady? || w.calls[k].GrantLoaded?)
    ensures var c := w.calls[k];
            && GrantOpOk(w.db, c.gid, c.gop)
            && (!c.GrantQueued? ==> LockedBy(w.locks, c.gid, k))
            && (c.GrantLoaded? ==> Seen(w.db.grants, c.gid, c.gseen, GrantGrows) && c.gseen.row.state == Active && GrantOk(w.hash, w.db, c.gid))
  {
    assert CallOk(w, k, w.calls[k]);
    assert w.calls[k].GrantLoaded? ==> GrantOk(w.hash, w.db, w.calls[k].gid);
  }

  lemma AcquireSafe(w: World, k: CallId)
    requires Inv(w) && k in w.calls && (w.calls[k].GrantQueued? || w.calls[k].ResolveQueued?)
    ensures Safe(w, DoAcquire(w, k), k)
  {
    hide Inv, Safe;
    if w.calls[k].GrantQueued? { GrantCallKnows(w, k); } else { QueuedOk(w, k); }
    SettleCalls(w, DoAcquire(w, k), k);
  }

  lemma QueuedOk(w: World, k: CallId)
    requires k in w.calls && w.calls[k].ResolveQueued?
    ensures CallOk(w, k, w.calls[k])
  {
  }

  lemma GrantLoadSafe(w: World, k: CallId)
    requires Inv(w) && k in w.calls && w.calls[k].GrantReady?
    ensures Safe(w, DoGrantLoad(w, k), k)
  {
    var c := w.calls[k];
    var w' := DoGrantLoad(w, k);
    GrantCallKnows(w, k);
    if c.gid !in w.db.grants || w.db.grants[c.gid].row.state != Active {
      FinishSafe(w, w', k);
    } else {
      GrantGrowsTransitive();
      EnterSafe(w, w', k, GrantLoaded(c.gid, c.gop, w.db.grants[c.gid]));
    }
  }

  lemma GrantWriteLater(db: Store, db': Store, id: string, next: Grant)
    requires BoundedStore(db) && (id in db.grants ==> GrantGrows(db.grants[id].row, next))
    requires db' == db.(grants := db.grants[id := Versioned(next, db.rev + 1)], rev := db.rev + 1)
    ensures Later(db, db') && BoundedStore(db')
  {
    GrowsTransitive(); ConfGrowsTransitive(); GrantGrowsTransitive();
  }

  lemma RetiredStaysDelegated(h: Hash, db: Store, g: Grant, op: GrantOp, now: int)
    requires Delegated(h, db, g)
    ensures Delegated(h, db, GrantTransform(g, op, now))
  {
    var g' := GrantTransform(g, op, now);
    var days :| RatifiedBy(h, db, g.ratificationRef, SpecOf(g, days), g.representationDue - days * DAY_MS);
    assert RatifiedBy(h, db, g'.ratificationRef, SpecOf(g', days), g'.representationDue - days * DAY_MS);
  }

  lemma RetiredGrantOk(h: Hash, db: Store, db': Store, id: string, op: GrantOp, now: int)
    requires Later(db, db') && GrantOk(h, db, id) && GrantOpOk(db, id, op) && db.grants[id].row.state == Active
    requires db'.grants[id].row == GrantTransform(db.grants[id].row, op, now)
    ensures GrantOk(h, db', id)
  {
    hide Delegated;
    DelegatedStable(h, db, db', db.grants[id].row);
    RetiredStaysDelegated(h, db', db.grants[id].row, op, now);
  }

  lemma GrantCommitSafe(w: World, k: CallId, now: int)
    requires Inv(w) && k in w.calls && w.calls[k].GrantLoaded?
    ensures Safe(w, DoGrantCommit(w, k, now), k)
  {
    hide Inv, Safe, Later, GrantOk, GrantOpOk;
    var c := w.calls[k];
    var w' := DoGrantCommit(w, k, now);
    GrantCallKnows(w, k);
    if w.db.grants[c.gid].rev == c.gseen.rev {
      BoundedNow(w);
      GrantWriteLater(w.db, w'.db, c.gid, GrantTransform(c.gseen.row, c.gop, now));
      RetiredGrantOk(w.hash, w.db, w'.db, c.gid, c.gop, now);
      SettleGrant(w, w', k, c.gid);
    } else {
      EnterSafe(w, w', k, GrantReady(c.gid, c.gop));
    }
  }

  /* ---------------------------------------------------------------- the gate */

  lemma ResolveCallKnows(w: World, k: CallId)
    requires Inv(w) && k in w.calls && (w.calls[k].ResolveStart? || w.calls[k].ResolvePre? || w.calls[k].ResolveAnswered?)
    ensures var c := w.calls[k];
            && (!c.ResolveAnswered? ==> BarrierOk(w.locks, k, c.req))
            && (!c.ResolveStart? ==> PreOk(w.db, c.req.id, c.pre))
            && (c.ResolveAnswered? ==> c.req.ref.Some? && c.req.ref.value in w.db.confirmations && ConfGrows(c.conf, w.db.confirmations[c.req.ref.value].row))
  {
    assert CallOk(w, k, w.calls[k]);
  }

  lemma RowKnows(w: World, id: string)
    requires Inv(w) && id in w.db.decisions
    ensures w.db.decisions[id].row.id == id && WellFormed(w.db.decisions[id].row)
  {
    assert DecisionOk(w.hash, w.db, id);
  }

  lemma ReadDecisionSafe(w: World, k: CallId)
    requires Inv(w) && k in w.calls && w.calls[k].ResolveStart?
    ensures Safe(w, DoReadDecision(w, k), k)
  {
    var req := w.calls[k].req;
    var w' := DoReadDecision(w, k);
    ResolveCallKnows(w, k);
    if req.id !in w.db.decisions || Phase.Resolved !in Exits(w.db.decisions[req.id].row.status) {
      FinishSafe(w, w', k);
    } else {
      RowKnows(w, req.id);
      EnterSafe(w, w', k, ResolvePre(req, w.db.decisions[req.id].row));
    }
  }

  lemma GateEnter(w: World, k: CallId, req: ResolveRequest, pre: Decision, mode: AuthorityMode, ref: AuthorityRef)
    requires Inv(w) && k in w.calls && PreOk(w.db, req.id, pre) && Justified(w.hash, w.db, pre, mode, ref, req.answer)
    requires mode == ClassGrant ==>
               ref.GrantAtVersion? && ref.grantId in w.db.grants && LockedBy(w.locks, ref.grantId, k) && w.db.grants[ref.grantId].row.state == Active
    ensures Safe(w, Gated(w, k, req, pre, mode, ref), k)
  {
    hide Inv, Safe;
    EnterSafe(w, Gated(w, k, req, pre, mode, ref), k, Ready(req.id, Resolve(req.executor, req.answer, mode, ref, req.rationale), Some(pre)));
  }

  lemma GrantRowKnows(w: World, id: string)
    requires Inv(w) && id in w.db.grants
    ensures GrantOk(w.hash, w.db, id)
  {
  }

  lemma SignalAccepted(w: World, k: CallId, req: ResolveRequest, pre: Decision)
    requires Inv(w) && k in w.calls && w.calls[k] == ResolvePre(req, pre) && req.ref.Some?
    requires req.ref.value in w.db.signals && !PlanRequiresConfirmation(pre.plan)
    ensures Safe(w, Gated(w, k, req, pre, DirectorViaProxy, ProofRef(req.ref.value)), k)
  {
    hide Inv, Safe, Grows;
    ResolveCallKnows(w, k);
    GateEnter(w, k, req, pre, DirectorViaProxy, ProofRef(req.ref.value));
  }

  lemma GrantAccepted(w: World, k: CallId, req: ResolveRequest, pre: Decision, now: int)
    requires Inv(w) && k in w.calls && w.calls[k] == ResolvePre(req, pre) && UnderGrant(req)
    requires pre.routedTo.Some? && pre.routedTo.value.SelfDisposal? && pre.routedTo.value.classGrantRef == req.ref
    requires req.ref.value in w.db.grants && Evaluates(w.db.grants[req.ref.value].row, pre, now)
    ensures var g := w.db.grants[req.ref.value].row; Safe(w, Gated(w, k, req, pre, ClassGrant, GrantAtVersion(g.id, g.version)), k)
  {
    hide Inv, Safe, Grows;
    ResolveCallKnows(w, k);
    GrantRowKnows(w, req.ref.value);
    GateEnter(w, k, req, pre, ClassGrant, GrantAtVersion(req.ref.value, w.db.grants[req.ref.value].row.version));
  }

  lemma ReadProofSafe(w: World, k: CallId, now: int)
    requires Inv(w) && k in w.calls && w.calls[k].ResolvePre?
    ensures Safe(w, DoReadProof(w, k, now), k)
  {
    hide Inv, Safe, Grows, Evaluates, PlanRequiresConfirmation, Gated;
    var ResolvePre(req, pre) := w.calls[k];
    var w' := DoReadProof(w, k, now);
    ResolveCallKnows(w, k);
    if w' == Done(w, k) {
      FinishSafe(w, w', k);
    } else if "dconf-" <= req.ref.value {
      ConfGrowsTransitive();
      EnterSafe(w, w', k, w'.calls[k]);
    } else if "dsig-" <= req.ref.value {
      SignalAccepted(w, k, req, pre);
    } else {
      GrantAccepted(w, k, req, pre, now);
    }
  }

  lemma ReadAnswerSafe(w: World, k: CallId, now: int)
    requires Inv(w) && k in w.calls && w.calls[k].ResolveAnswered?
    ensures Safe(w, DoReadAnswer(w, k, now), k)
  {
    hide Inv, Safe, Grows;
    var ResolveAnswered(req, pre, conf) := w.calls[k];
    var w' := DoReadAnswer(w, k, now);
    ResolveCallKnows(w, k);
    if k !in w'.calls {
      FinishSafe(w, w', k);
    } else {
      GateEnter(w, k, req, pre, DirectorDirect, ProofRef(req.ref.value));
    }
  }

  /* ---------------------------------------------------------------- minting a grant */

  lemma MintCallKnows(w: World, k: CallId)
    requires Inv(w) && k in w.calls && (w.calls[k].MintRatified? || w.calls[k].MintChecked? || w.calls[k].MintConsumed?)
    ensures var c := w.calls[k];
            && MintOk(w.hash, w.db, c.mint, c.resolvedAt)
            && (!c.MintRatified? ==> VersionOk(w.db, c.mint.supersedes, c.version))
            && (c.MintConsumed? ==> SpentOn(w.db, c.mint.ratificationRef, c.gid) && "grant-" <= c.gid)
  {
    assert CallOk(w, k, w.calls[k]);
  }

  lemma BeginMintSafe(w: World, k: CallId, m: MintRequest)
    requires Inv(w) && k !in w.calls
    ensures Safe(w, DoBeginMint(w, k, m), k)
  {
    hide Inv, Safe;
    SettleCalls(w, DoBeginMint(w, k, m), k);
  }

  lemma ReadPriorSafe(w: World, k: CallId)
    requires Inv(w) && k in w.calls && w.calls[k].MintRatified?
    ensures Safe(w, DoReadPrior(w, k), k)
  {
    hide Inv, Safe;
    var w' := DoReadPrior(w, k);
    MintCallKnows(w, k);
    if k !in w'.calls { FinishSafe(w, w', k); } else { EnterSafe(w, w', k, w'.calls[k]); }
  }

  lemma RatificationLater(db: Store, db': Store, ref: string, gid: string)
    requires BoundedStore(db) && ref !in db.ratifications && db' == db.(ratifications := db.ratifications[ref := gid])
    ensures Later(db, db') && BoundedStore(db')
  {
    GrowsTransitive(); ConfGrowsTransitive(); GrantGrowsTransitive();
  }

  lemma ConsumeRatificationSafe(w: World, k: CallId, gid: string)
    requires Inv(w) && k in w.calls && w.calls[k].MintChecked? && "grant-" <= gid
    ensures Safe(w, DoConsumeRatification(w, k, gid), k)
  {
    hide Inv, Safe, Later;
    var w' := DoConsumeRatification(w, k, gid);
    MintCallKnows(w, k);
    if k !in w'.calls {
      FinishSafe(w, w', k);
    } else {
      BoundedNow(w);
      RatificationLater(w.db, w'.db, w.calls[k].mint.ratificationRef, gid);
      SettleProofs(w, w', k);
    }
  }

  lemma NewGrantOk(h: Hash, db: Store, db': Store, m: MintRequest, at: int, version: nat, gid: string, now: int)
    requires Later(db, db') && MintOk(h, db, m, at) && VersionOk(db, m.supersedes, version) && SpentOn(db, m.ratificationRef, gid) && "grant-" <= gid
    requires gid in db'.grants && db'.grants[gid].row == NewGrant(m, gid, version, at, now)
    ensures GrantOk(h, db', gid)
  {
    var g := db'.grants[gid].row;
    assert SpecOf(g, m.spec.representationDays) == m.spec;
    assert RatifiedBy(h, db', g.ratificationRef, SpecOf(g, m.spec.representationDays), g.representationDue - m.spec.representationDays * DAY_MS);
  }

  lemma WriteGrantSafe(w: World, k: CallId, now: int)
    requires Inv(w) && k in w.calls && w.calls[k].MintConsumed?
    ensures Safe(w, DoWriteGrant(w, k, now), k)
  {
    hide Inv, Safe, Later, GrantOk;
    var MintConsumed(m, at, version, gid) := w.calls[k];
    var w' := DoWriteGrant(w, k, now);
    MintCallKnows(w, k);
    if gid in w.db.grants {
      FinishSafe(w, w', k);
    } else {
      BoundedNow(w);
      GrantWriteLater(w.db, w'.db, gid, NewGrant(m, gid, version, at, now));
      NewGrantOk(w.hash, w.db, w'.db, m, at, version, gid, now);
      SettleGrant(w, w', k, gid);
    }
  }

  /* ---------------------------------------------------------------- all steps */

  lemma SettleIdle(w: World, k: CallId)
    requires Inv(w)
    ensures Safe(w, w, k)
  {
    GrowsTransitive(); ConfGrowsTransitive(); GrantGrowsTransitive();
  }

  lemma EndSafe(w: World, k: CallId)
    requires Inv(w)
    ensures Safe(w, DoWriteRaw(w, k), k)
    ensures Safe(w, DoAbandon(w, k), k)
  {
    hide Inv, Safe;
    if k in w.calls {
      FinishSafe(w, DoAbandon(w, k), k);
      if w.calls[k].RawOwed? { FinishSafe(w, DoWriteRaw(w, k), k); } else { SettleIdle(w, k); }
    } else {
      SettleIdle(w, k);
    }
  }

  lemma BeginSafe(w: World, k: CallId, id: string, verb: Verb)
    requires Inv(w) && k !in w.calls
    ensures Safe(w, DoBegin(w, k, id, verb), k)
  {
    hide Inv, Safe;
    GrowsTransitive();
    SettleCalls(w, DoBegin(w, k, id, verb), k);
  }

  lemma OpenSafe(w: World, k: CallId, c: Call)
    requires Inv(w) && k !in w.calls && (c.ConfReady? || c.ResolveQueued? || (c.GrantQueued? && c.gop.Revoke?))
    ensures Safe(w, At(w, k, c), k)
  {
    hide Inv, Safe;
    EnterSafe(w, At(w, k, c), k, c);
  }

  lemma DecisionStepSafe(w: World, s: Step)
    requires Inv(w) && !(Opens(s) && s.k in w.calls) && (s.Raise? || s.WriteRaw? || s.Begin? || s.Load? || s.Commit? || s.ReadTargetRaw? || s.ReadOwnRaw? || s.WriteTrail? || s.Abandon?)
    ensures Safe(w, Do(w, s), s.k)
  {
    hide Inv, Safe, DoBegin, DoAbandon, DoWriteRaw;
    SettleIdle(w, s.k);
    EndSafe(w, s.k);
    match s
    case Raise(k, id, input, rawId, now) => if id !in w.db.decisions { RaiseSafe(w, k, id, input, rawId, now); }
    case Begin(k, id, verb) => BeginSafe(w, k, id, verb);
    case Load(k, now) => if k in w.calls && w.calls[k].Ready? { LoadSafe(w, k, now); }
    case Commit(k) => if k in w.calls && w.calls[k].Loaded? { CommitSafe(w, k); }
    case ReadTargetRaw(k) => RawReadSafe(w, k);
    case ReadOwnRaw(k) => RawReadSafe(w, k);
    case WriteTrail(k, recordId, now) => if k in w.calls && w.calls[k].TrailOwed? { TrailSafe(w, k, recordId, now); }
    case _ =>
  }

  lemma ProofStepSafe(w: World, s: Step)
    requires Inv(w) && !(Opens(s) && s.k in w.calls) && (s.MintSignal? || s.MintConfirmation? || s.BeginConsume? || s.ConfLoad? || s.ConfCommit?)
    ensures Safe(w, Do(w, s), s.k)
  {
    hide Inv, Safe;
    SettleIdle(w, s.k);
    match s
    case MintSignal(k, id, signal) => if id !in w.db.signals { MintSignalSafe(w, k, id, signal); }
    case MintConfirmation(k, id, conf) => if id !in w.db.confirmations { MintConfirmationSafe(w, k, id, conf); }
    case BeginConsume(k, id, e, consumer) => OpenSafe(w, k, ConfReady(id, Consume(e, consumer)));
    case ConfLoad(k, now) => if k in w.calls && w.calls[k].ConfReady? { ConfLoadSafe(w, k, now); }
    case ConfCommit(k) => if k in w.calls && w.calls[k].ConfLoaded? { ConfCommitSafe(w, k); }
  }

  lemma GrantStepSafe(w: World, s: Step)
    requires Inv(w) && !(Opens(s) && s.k in w.calls) && (s.BeginRevoke? || s.Acquire? || s.GrantLoad? || s.GrantCommit?)
    ensures Safe(w, Do(w, s), s.k)
  {
    hide Inv, Safe;
    SettleIdle(w, s.k);
    match s
    case BeginRevoke(k, id, reason) => OpenSafe(w, k, GrantQueued(id, Revoke(reason)));
    case Acquire(k) => if k in w.calls && (w.calls[k].GrantQueued? || w.calls[k].ResolveQueued?) { AcquireSafe(w, k); }
    case GrantLoad(k) => if k in w.calls && w.calls[k].GrantReady? { GrantLoadSafe(w, k); }
    case GrantCommit(k, now) => if k in w.calls && w.calls[k].GrantLoaded? { GrantCommitSafe(w, k, now); }
  }

  lemma GateStepSafe(w: World, s: Step)
    requires Inv(w) && !(Opens(s) && s.k in w.calls) && (s.BeginResolve? || s.ReadDecision? || s.ReadProof? || s.ReadAnswer?)
    ensures Safe(w, Do(w, s), s.k)
  {
    hide Inv, Safe;
    SettleIdle(w, s.k);
    match s
    case BeginResolve(k, req) => OpenSafe(w, k, ResolveQueued(req));
    case ReadDecision(k) => if k in w.calls && w.calls[k].ResolveStart? { ReadDecisionSafe(w, k); }
    case ReadProof(k, now) => if k in w.calls && w.calls[k].ResolvePre? { ReadProofSafe(w, k, now); }
    case ReadAnswer(k, now) => if k in w.calls && w.calls[k].ResolveAnswered? { ReadAnswerSafe(w, k, now); }
  }

  lemma MintStepSafe(w: World, s: Step)
    requires Inv(w) && !(Opens(s) && s.k in w.calls) && (s.BeginMint? || s.ReadPrior? || s.ConsumeRatification? || s.WriteGrant?)
    ensures Safe(w, Do(w, s), s.k)
  {
    hide Inv, Safe;
    SettleIdle(w, s.k);
    match s
    case BeginMint(k, m) => BeginMintSafe(w, k, m);
    case ReadPrior(k) => if k in w.calls && w.calls[k].MintRatified? { ReadPriorSafe(w, k); }
    case ConsumeRatification(k, gid) => if k in w.calls && w.calls[k].MintChecked? && "grant-" <= gid { ConsumeRatificationSafe(w, k, gid); }
    case WriteGrant(k, now) => if k in w.calls && w.calls[k].MintConsumed? { WriteGrantSafe(w, k, now); }
  }

  /** The heart of it: no step of any call, wherever it falls among the steps of the others, breaks the
      invariant or what the other calls rely on. */
  lemma StepSafe(w: World, s: Step)
    requires Inv(w)
    ensures Safe(w, Do(w, s), s.k)
  {
    hide Inv, Safe;
    if Opens(s) && s.k in w.calls { SettleIdle(w, s.k); }
    else if s.Raise? || s.WriteRaw? || s.Begin? || s.Load? || s.Commit? || s.ReadTargetRaw? || s.ReadOwnRaw? || s.WriteTrail? || s.Abandon? { DecisionStepSafe(w, s); }
    else if s.MintSignal? || s.MintConfirmation? || s.BeginConsume? || s.ConfLoad? || s.ConfCommit? { ProofStepSafe(w, s); }
    else if s.BeginRevoke? || s.Acquire? || s.GrantLoad? || s.GrantCommit? { GrantStepSafe(w, s); }
    else if s.BeginResolve? || s.ReadDecision? || s.ReadProof? || s.ReadAnswer? { GateStepSafe(w, s); }
    else { MintStepSafe(w, s); }
  }
}
