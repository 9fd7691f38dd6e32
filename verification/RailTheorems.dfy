/** What holds of every run of the rail, however the steps of its calls interleave. */
module RailTheorems {
  import opened Substrate
  import opened Decisions
  import opened DirectorProof
  import opened ClassGrants
  import opened Rail
  import opened RailSafety

  /* ------------------------------------------------------------------ runs */

  lemma InitInv(hash: Hash)
    ensures Inv(Init(hash))
  {
  }

  lemma OnwardTransitive(a: World, b: World, c: World)
    requires Onward(a, b) && Onward(b, c)
    ensures Onward(a, c)
  {
    LaterTransitive(a.db, b.db, c.db);
  }

  lemma OnwardHere(w: World)
    requires Inv(w)
    ensures Onward(w, w)
  {
    SettleIdle(w, 0);
  }

  /** The invariant holds all along a run, and the tables only move onward. */
  lemma {:induction false} RunSafe(w: World, steps: seq<Step>)
    requires Inv(w)
    ensures Inv(Run(w, steps)) && Onward(w, Run(w, steps))
    decreases |steps|
  {
    hide Inv, Onward;
    if steps == [] {
      OnwardHere(w);
    } else {
      StepSafe(w, steps[0]);
      RunSafe(Do(w, steps[0]), steps[1..]);
      OnwardTransitive(w, Do(w, steps[0]), Run(w, steps));
    }
  }

  lemma {:induction false} RunAppend(w: World, a: seq<Step>, b: seq<Step>)
    ensures Run(w, a + b) == Run(Run(w, a), b)
    decreases |a|
  {
    if a == [] {
      assert a + b == b;
    } else {
      assert (a + b)[0] == a[0] && (a + b)[1..] == a[1..] + b;
      RunAppend(Do(w, a[0]), a[1..], b);
    }
  }

  /** The world some run has reached. */
  function Reached(hash: Hash, steps: seq<Step>): World {
    Run(Init(hash), steps)
  }

  lemma ReachedInv(hash: Hash, steps: seq<Step>)
    ensures Inv(Reached(hash, steps)) && Reached(hash, steps).hash == hash
  {
    InitInv(hash);
    RunSafe(Init(hash), steps);
  }

  /* ------------------------------------------------------------------ what a resolution says is true */

  /** The grant admits the decision: its class, and none it excludes; the kind of its parent; every action of the plan, a
      reversible one if only these are granted; and no ref it excludes, as parent or as the target of an action. */
  ghost predicate WithinGrant(g: Grant, d: Decision) {
    && d.cls == Some(g.cls) && d.cls.value !in g.excludedClasses
    && (g.parentKinds.Some? ==> d.parentRef.Some? && d.parentRef.value.kind in g.parentKinds.value)
    && (d.parentRef.Some? && d.parentRef.value.id != "" ==> d.parentRef.value.id !in g.excludedRefs)
    && forall i | 0 <= i < |d.plan| ::
         && d.plan[i].action in g.allowedActions
         && (g.reversibleOnly ==> d.plan[i].action in {"unblock", "approve"})
         && (d.plan[i].targetRef != "" ==> d.plan[i].targetRef !in g.excludedRefs)
  }

  lemma CoversMeans(g: Grant, d: Decision)
    ensures Covers(g, d) <==> WithinGrant(g, d)
  {
    if WithinGrant(g, d) {
      forall a | a in d.plan ensures a.action in g.allowedActions && (g.reversibleOnly ==> a.action in REVERSIBLE_ACTIONS) && (a.targetRef != "" ==> a.targetRef !in g.excludedRefs) {
        var i :| 0 <= i < |d.plan| && d.plan[i] == a;
      }
    }
    if Covers(g, d) {
      forall i | 0 <= i < |d.plan| ensures d.plan[i].action in g.allowedActions && (d.plan[i].targetRef != "" ==> d.plan[i].targetRef !in g.excludedRefs) {
        assert d.plan[i] in d.plan;
        assert d.plan[i].targetRef != "" ==> d.plan[i].targetRef in TouchedRefs(d);
      }
      assert d.parentRef.Some? && d.parentRef.value.id != "" ==> d.parentRef.value.id in TouchedRefs(d);
    }
  }

  /** A confirmation is bound to this decision, its prompt, its answer and its plan. */
  predicate BoundAs(hash: Hash, c: Confirmation, d: Decision, answer: Answer) {
    && c.decisionId == d.id && c.promptHash == hash(Prompt(d.id, d.title, d.context, d.options))
    && c.answerHash == hash(Proposed(answer)) && c.planHash == if d.plan == [] then None else Some(hash(Plan(d.plan)))
  }

  /** "`d` is answered with `answer` on this authority" is true of the stored rows.  One that claims the Director's direct
      word names a confirmation bound to this very decision, its prompt, its answer and its plan, and answered by a signal
      that a director gave.  One that claims a proxy's word names a stored signal, and the plan is reversible.  One that
      claims a grant names a stored grant, at its version, that admits the decision and that the route cites.  No other
      kind of claim is ever true. */
  ghost predicate ClaimIsTrue(hash: Hash, db: Store, d: Decision, mode: AuthorityMode, ref: AuthorityRef, answer: Answer) {
    match mode
    case DirectorDirect =>
      && ref.ProofRef? && ref.id in db.confirmations && var c := db.confirmations[ref.id].row;
      && BoundAs(hash, c, d, answer)
      && c.answeredBy.Some? && c.answeredBy.value in db.signals && db.signals[c.answeredBy.value].capturedBy.role == "director"
    case DirectorViaProxy =>
      ref.ProofRef? && ref.id in db.signals && forall i | 0 <= i < |d.plan| :: d.plan[i].action in {"unblock", "approve"}
    case ClassGrant =>
      && ref.GrantAtVersion? && ref.grantId in db.grants && var g := db.grants[ref.grantId].row;
      && g.version == ref.version && WithinGrant(g, d)
      && d.routedTo.Some? && d.routedTo.value.SelfDisposal? && d.routedTo.value.classGrantRef == Some(ref.grantId)
    case _ => false
  }

  lemma JustifiedMeans(hash: Hash, db: Store, d: Decision, mode: AuthorityMode, ref: AuthorityRef, answer: Answer)
    ensures Justified(hash, db, d, mode, ref, answer) <==> ClaimIsTrue(hash, db, d, mode, ref, answer)
  {
    hide Covers, WithinGrant;
    if mode == ClassGrant && ref.GrantAtVersion? && ref.grantId in db.grants { CoversMeans(db.grants[ref.grantId].row, d); }
  }

  /** Every resolution on record makes a true claim. */
  lemma EveryResolutionIsJustified(hash: Hash, steps: seq<Step>, id: string)
    requires var w := Reached(hash, steps); id in w.db.decisions && w.db.decisions[id].row.resolution.Some?
    ensures var w := Reached(hash, steps); var d := w.db.decisions[id].row; var r := d.resolution.value;
            d.id == id && ClaimIsTrue(hash, w.db, d, r.mode, r.ref, r.answer)
  {
    hide Inv, Justified, ClaimIsTrue;
    var w := Reached(hash, steps);
    ReachedInv(hash, steps);
    DecisionIsOk(w, id);
    var d := w.db.decisions[id].row;
    JustifiedMeans(hash, w.db, d, d.resolution.value.mode, d.resolution.value.ref, d.resolution.value.answer);
  }

  lemma DecisionIsOk(w: World, id: string)
    requires Inv(w) && id in w.db.decisions
    ensures DecisionOk(w.hash, w.db, id)
  {
  }

  /** A commit that lands is a commit of the row the call last loaded. */
  predicate Wins(w: World, k: CallId) {
    && k in w.calls && w.calls[k].Loaded?
    && w.calls[k].id in w.db.decisions && w.db.decisions[w.calls[k].id].rev == w.calls[k].seen.rev
  }

  /** The gap between the gate and the commit does no harm.  The gate ran on a copy read outside the
      compare-and-swap; if the commit lands, that copy and the committed row are the same case, what the
      gate established of the copy is true of the committed row, and a grant relied on is active still. */
  lemma GateVerdictHoldsAtCommit(hash: Hash, steps: seq<Step>, k: CallId)
    requires var w := Reached(hash, steps); Wins(w, k) && w.calls[k].verb.Resolve?
    ensures var w := Reached(hash, steps); var c := w.calls[k];
            c.before.Some? && ClaimIsTrue(hash, w.db, c.before.value, c.verb.mode, c.verb.ref, c.verb.answer)
    ensures var w := Reached(hash, steps); var c := w.calls[k]; var w' := Do(w, Commit(k));
            && c.id in w'.db.decisions && var e := w'.db.decisions[c.id].row;
            && SameCase(c.before.value, e) && c.before.value.status == Routed && e.status == Phase.Resolved
            && e.resolution == Some(Resolution(c.verb.mode, c.verb.ref, c.verb.executor, c.verb.answer, c.verb.rationale, c.now))
            && ClaimIsTrue(hash, w'.db, e, c.verb.mode, c.verb.ref, c.verb.answer)
    ensures var w := Reached(hash, steps); var c := w.calls[k]; var w' := Do(w, Commit(k));
            c.verb.mode == ClassGrant ==>
              && c.verb.ref.GrantAtVersion? && c.verb.ref.grantId in w.db.grants && w'.db.grants == w.db.grants
              && w.db.grants[c.verb.ref.grantId].row.state == Active && LockedBy(w.locks, c.verb.ref.grantId, k)
  {
    hide Inv, Onward, Justified, ClaimIsTrue, Do;
    var w := Reached(hash, steps);
    var c := w.calls[k];
    ReachedInv(hash, steps);
    LoadedKnows(w, k);
    VerdictOf(w, k);
    StepSafe(w, Commit(k));
    ResolveCommits(w, k);
    var e := Do(w, Commit(k)).db.decisions[c.id].row;
    CaseIsFrozen(c.before.value, c.seen.row);
    JustifiedByCase(hash, w.db, c.before.value, e, c.verb.mode, c.verb.ref, c.verb.answer);
    JustifiedAfter(w, Do(w, Commit(k)), e, c.verb.mode, c.verb.ref, c.verb.answer);
    JustifiedMeans(hash, w.db, c.before.value, c.verb.mode, c.verb.ref, c.verb.answer);
    JustifiedMeans(hash, Do(w, Commit(k)).db, e, c.verb.mode, c.verb.ref, c.verb.answer);
  }

  lemma JustifiedAfter(w: World, w': World, d: Decision, mode: AuthorityMode, ref: AuthorityRef, answer: Answer)
    requires Onward(w, w') && Justified(w.hash, w.db, d, mode, ref, answer)
    ensures Justified(w.hash, w'.db, d, mode, ref, answer)
  {
    JustifiedStable(w.hash, w.db, w'.db, d, mode, ref, answer);
  }

  lemma ResolveCommits(w: World, k: CallId)
    requires Wins(w, k) && w.calls[k].verb.Resolve? && w.db.decisions[w.calls[k].id] == w.calls[k].seen
    requires Allowed(w.calls[k].seen.row, w.calls[k].verb)
    ensures var c := w.calls[k]; var w' := Do(w, Commit(k));
            && w'.db == w.db.(decisions := w'.db.decisions, rev := w'.db.rev)
            && c.id in w'.db.decisions && w'.db.decisions[c.id].row == Transform(c.seen.row, c.verb, c.now)
            && SameCase(c.seen.row, w'.db.decisions[c.id].row)
            && w'.past.resolved == w.past.resolved + [Settled(c.id, w'.db.decisions[c.id].row.resolution.value, GrantActive(w, c.verb.ref))]
  {
  }

  lemma OnwardDecision(w: World, w': World, id: string)
    requires Onward(w, w') && id in w.db.decisions
    ensures id in w'.db.decisions && Grows(w.db.decisions[id].row, w'.db.decisions[id].row)
  {
  }

  /** A routed decision is one case from then on: at every later moment of the run, whatever ran in between and whatever its
      phase by then, its question, class, route and plan are what they were.  While it is routed nothing of it changes,
      and it does not come back to routed once it has left. */
  lemma RoutedCaseIsFrozen(hash: Hash, steps: seq<Step>, more: seq<Step>, id: string, n: nat)
    requires id in Reached(hash, steps).db.decisions && Reached(hash, steps).db.decisions[id].row.status == Routed && n <= |more|
    ensures var u := Reached(hash, steps + more); id in u.db.decisions && var a, b := Reached(hash, steps).db.decisions[id].row, u.db.decisions[id].row;
            && SameCase(a, b) && b.status in {Routed, Phase.Resolved, Executed, Disposed}
            && (b.status == Routed ==> b == a.(binding := b.binding, updatedAt := b.updatedAt))
    ensures var v, u := Reached(hash, steps + more[..n]), Reached(hash, steps + more);
            id in v.db.decisions && id in u.db.decisions && (u.db.decisions[id].row.status == Routed ==> v.db.decisions[id].row.status == Routed)
  {
    hide Inv, Onward;
    var w := Reached(hash, steps);
    ReachedInv(hash, steps);
    RunSafe(w, more);
    RunAppend(Init(hash), steps, more);
    OnwardDecision(w, Run(w, more), id);
    RunSafe(w, more[..n]);
    RunAppend(Init(hash), steps, more[..n]);
    OnwardDecision(w, Run(w, more[..n]), id);
    RunSafe(Run(w, more[..n]), more[n..]);
    RunAppend(w, more[..n], more[n..]);
    assert more[..n] + more[n..] == more;
    OnwardDecision(Run(w, more[..n]), Run(w, more), id);
  }

  /* ------------------------------------------------------------------ steps beside the decision rows */

  /** Steps that touch no decision row, no capture, no trail record and no history. */
  predicate Sidelong(s: Step) {
    !(s.Raise? || s.WriteRaw? || s.Load? || s.Commit? || s.ReadTargetRaw? || s.ReadOwnRaw? || s.WriteTrail? || s.Abandon?)
  }

  /** A call that has no decision row loaded and owes no capture and no record. */
  predicate Plain(c: Call) {
    !(c.Loaded? || c.TrailOwed? || c.RawOwed?)
  }

  ghost predicate Aside(w: World, w': World, k: CallId) {
    match w case World(_, db, _, calls, past) =>
      || w' == w
      || (&& w'.db.decisions == db.decisions && w'.db.raws == db.raws && w'.db.records == db.records && w'.past == past
          && w'.calls - {k} == calls - {k}
          && (k in calls ==> Plain(calls[k])) && (k in w'.calls ==> Plain(w'.calls[k])))
  }

  lemma SidelongProofs(w: World, s: Step)
    requires s.MintSignal? || s.MintConfirmation? || s.ConfLoad? || s.ConfCommit?
    ensures Aside(w, Do(w, s), s.k)
  {
    hide ConfAllowed, ConfTransform, Unlock;
  }

  lemma SidelongOpenings(w: World, s: Step)
    requires s.Begin? || s.BeginConsume? || s.BeginRevoke? || s.BeginResolve?
    ensures Aside(w, Do(w, s), s.k)
  {
    hide Blank;
  }

  lemma SidelongGrants(w: World, s: Step)
    requires s.Acquire? || s.GrantLoad? || s.GrantCommit?
    ensures Aside(w, Do(w, s), s.k)
  {
    hide UnderGrant, GrantTransform, Unlock;
  }

  lemma SidelongMints(w: World, s: Step)
    requires s.BeginMint? || s.ReadPrior? || s.ConsumeRatification?
    ensures Aside(w, Do(w, s), s.k)
  {
    hide Ratifies, Consistent, Unlock;
  }

  /** A call that owes nothing moved to another such stage, or ended. */
  lemma MovedAside(w: World, w': World, k: CallId, c: Call)
    requires w'.db.decisions == w.db.decisions && w'.db.raws == w.db.raws && w'.db.records == w.db.records && w'.past == w.past
    requires (k in w.calls ==> Plain(w.calls[k])) && Plain(c) && (w'.calls == w.calls[k := c] || w'.calls == w.calls - {k})
    ensures Aside(w, w', k)
  {
    assert w.calls[k := c] - {k} == w.calls - {k};
    assert w.calls - {k} - {k} == w.calls - {k};
  }

  lemma SidelongMintWrites(w: World, s: Step)
    requires s.WriteGrant?
    ensures Aside(w, Do(w, s), s.k)
  {
    hide DoWriteGrant, Aside;
    GrantWriteAside(w, s.k, s.now);
  }

  lemma GrantWriteAside(w: World, k: CallId, now: int)
    ensures Aside(w, DoWriteGrant(w, k, now), k)
  {
    if k in w.calls && w.calls[k].MintConsumed? {
      hide NewGrant, Unlock, Aside, Cites;
      var w' := DoWriteGrant(w, k, now);
      MovedAside(w, w', k, if k in w'.calls then w'.calls[k] else w.calls[k]);
    }
  }

  lemma SidelongGate(w: World, s: Step)
    requires s.ReadDecision?
    ensures Aside(w, Do(w, s), s.k)
  {
  }

  lemma SidelongReads(w: World, s: Step)
    requires s.ReadProof? || s.ReadAnswer?
    ensures Aside(w, Do(w, s), s.k)
  {
    hide Aside, DoReadProof, DoReadAnswer;
    if s.ReadProof? { ProofAside(w, s.k, s.now); } else { AnswerAside(w, s.k, s.now); }
  }

  lemma ProofAside(w: World, k: CallId, now: int)
    ensures Aside(w, DoReadProof(w, k, now), k)
  {
    if k in w.calls && w.calls[k].ResolvePre? {
      hide Evaluates, PlanRequiresConfirmation, Unlock, Aside, Cites;
      var w' := DoReadProof(w, k, now);
      MovedAside(w, w', k, if k in w'.calls then w'.calls[k] else w.calls[k]);
    }
  }

  lemma AnswerAside(w: World, k: CallId, now: int)
    ensures Aside(w, DoReadAnswer(w, k, now), k)
  {
    if k in w.calls && w.calls[k].ResolveAnswered? {
      hide Consumable, Expected, Unlock, Aside;
      var w' := DoReadAnswer(w, k, now);
      MovedAside(w, w', k, if k in w'.calls then w'.calls[k] else w.calls[k]);
    }
  }

  lemma SidelongSteps(w: World, s: Step)
    requires Sidelong(s)
    ensures Aside(w, Do(w, s), s.k)
  {
    hide Do, Aside;
    if s.MintSignal? || s.MintConfirmation? || s.ConfLoad? || s.ConfCommit? { SidelongProofs(w, s); }
    else if s.Begin? || s.BeginConsume? || s.BeginRevoke? || s.BeginResolve? { SidelongOpenings(w, s); }
    else if s.ReadDecision? { SidelongGate(w, s); }
    else if s.ReadProof? || s.ReadAnswer? { SidelongReads(w, s); }
    else if s.Acquire? || s.GrantLoad? || s.GrantCommit? { SidelongGrants(w, s); }
    else if s.BeginMint? || s.ReadPrior? || s.ConsumeRatification? { SidelongMints(w, s); }
    else { SidelongMintWrites(w, s); }
  }

  /* ------------------------------------------------------------------ which steps add to the history */

  /** A step either adds nothing to the history of resolutions, or is the winning commit of a resolve
      call and adds that resolution, noting whether its grant was active when the row was written. */
  ghost predicate LogStep(w: World, w': World, k: CallId) {
    || w'.past.resolved == w.past.resolved
    || (&& Wins(w, k) && w.calls[k].verb.Resolve?
        && |w'.past.resolved| == |w.past.resolved| + 1 && w.past.resolved <= w'.past.resolved
        && var e := w'.past.resolved[|w.past.resolved|];
           e.id == w.calls[k].id && e.grantActive == GrantActive(w, e.resolution.ref))
  }

  lemma CommitLogStep(w: World, s: Step)
    requires s.Commit?
    ensures LogStep(w, Do(w, s), s.k)
  {
  }

  lemma EveryLogStep(w: World, s: Step)
    ensures LogStep(w, Do(w, s), s.k)
  {
    if s.Commit? { CommitLogStep(w, s); } else if Sidelong(s) { hide Do; SidelongSteps(w, s); }
  }

  /** One decision, one resolution; and no confirmation stands behind two of them, whether or not the
      caller got round to consuming it. */
  lemma NoAuthorityIsSpentTwice(hash: Hash, steps: seq<Step>, i: nat, j: nat)
    requires i < j < |Reached(hash, steps).past.resolved|
    ensures var log := Reached(hash, steps).past.resolved;
            && log[i].id != log[j].id
            && (log[i].resolution.mode == DirectorDirect && log[j].resolution.mode == DirectorDirect ==> log[i].resolution.ref != log[j].resolution.ref)
  {
    var w := Reached(hash, steps);
    ReachedInv(hash, steps);
    LogEntryOk(w, i);
    LogEntryOk(w, j);
  }

  lemma LogEntryOk(w: World, i: nat)
    requires Inv(w) && i < |w.past.resolved|
    ensures var e := w.past.resolved[i]; SettledOk(w.db, e) && DecisionOk(w.hash, w.db, e.id)
  {
    assert SettledOk(w.db, w.past.resolved[i]);
  }

  /** A resolution under a grant is written only while the grant is active: a revoke or a supersede that
      finished earlier leaves no way through, however long ago the gate looked. */
  lemma DeadGrantsAuthoriseNothing(hash: Hash, steps: seq<Step>, more: seq<Step>, g: string, i: nat)
    requires var w := Reached(hash, steps); g in w.db.grants && w.db.grants[g].row.state != Active
    requires |Reached(hash, steps).past.resolved| <= i < |Reached(hash, steps + more).past.resolved|
    ensures var r := Reached(hash, steps + more).past.resolved[i].resolution;
            r.mode == ClassGrant ==> r.ref.GrantAtVersion? && r.ref.grantId != g
  {
    ReachedInv(hash, steps);
    RunAppend(Init(hash), steps, more);
    DeadGrantAlongRun(Reached(hash, steps), more, g, i);
  }

  lemma {:induction false} DeadGrantAlongRun(w: World, steps: seq<Step>, g: string, i: nat)
    requires Inv(w) && g in w.db.grants && w.db.grants[g].row.state != Active
    requires |w.past.resolved| <= i < |Run(w, steps).past.resolved|
    ensures var r := Run(w, steps).past.resolved[i].resolution; r.mode == ClassGrant ==> r.ref.GrantAtVersion? && r.ref.grantId != g
    decreases |steps|
  {
    hide Inv, Onward, Do, Justified;
    if steps != [] {
      var u := Do(w, steps[0]);
      StepSafe(w, steps[0]);
      EveryLogStep(w, steps[0]);
      OnwardGrant(w, u, g);
      RunSafe(u, steps[1..]);
      OnwardLog(u, Run(u, steps[1..]));
      if |u.past.resolved| <= i {
        DeadGrantAlongRun(u, steps[1..], g, i);
      } else {
        LogEntryOk(u, i);
        GrantClaimCitesGrant(u, u.past.resolved[i]);
      }
    }
  }

  lemma OnwardGrant(w: World, w': World, g: string)
    requires Onward(w, w') && g in w.db.grants
    ensures g in w'.db.grants && GrantGrows(w.db.grants[g].row, w'.db.grants[g].row)
  {
  }

  lemma OnwardLog(w: World, w': World)
    requires Onward(w, w')
    ensures w.past.resolved <= w'.past.resolved
  {
  }

  lemma GrantClaimCitesGrant(w: World, e: Settled)
    requires SettledOk(w.db, e) && DecisionOk(w.hash, w.db, e.id)
    ensures e.resolution.mode == ClassGrant ==> e.resolution.ref.GrantAtVersion? && e.grantActive
  {
  }

  /* ------------------------------------------------------------------ confirmations */

  predicate ConfWins(w: World, k: CallId) {
    && k in w.calls && w.calls[k].ConfLoaded?
    && w.calls[k].cid in w.db.confirmations && w.db.confirmations[w.calls[k].cid].rev == w.calls[k].cseen.rev
  }

  /** Among any number of racing callers with their retries, at most one answers a confirmation and at
      most one consumes it, and what it is bound to is never rewritten. */
  lemma ConfirmationsAreSpentOnce(hash: Hash, steps: seq<Step>, k: CallId, more: seq<Step>, j: CallId)
    requires ConfWins(Reached(hash, steps), k)
    ensures var w := Reached(hash, steps); var u := Run(Do(w, ConfCommit(k)), more); var c := w.calls[k];
            && c.cid in u.db.confirmations && var a, b := w.db.confirmations[c.cid].row, u.db.confirmations[c.cid].row;
            && b.decisionId == a.decisionId && b.promptHash == a.promptHash && b.answerHash == a.answerHash && b.planHash == a.planHash && b.expiresAt == a.expiresAt && b.proposed == a.proposed
            && (c.cop.BindAnswer? ==> a.answeredBy == None && b.answeredBy == Some(c.cop.signalId))
            && (c.cop.Consume? ==> a.consumedAt == None && b.consumedAt == Some(c.now) && b.consumedBy == Some(c.cop.consumer))
            && (ConfWins(u, j) && u.calls[j].cid == c.cid ==>
                  c.cop.BindAnswer? && u.calls[j].cop.Consume?)
  {
    hide Inv, Onward;
    var w := Reached(hash, steps);
    var v := Do(w, ConfCommit(k));
    var u := Run(v, more);
    var c := w.calls[k];
    ReachedInv(hash, steps);
    ConfLoadedKnows(w, k);
    StepSafe(w, ConfCommit(k));
    ConfCommitted(w, k);
    RunSafe(v, more);
    OnwardConfirmation(v, u, c.cid);
    if ConfWins(u, j) { ConfLoadedKnows(u, j); }
  }

  lemma ConfCommitted(w: World, k: CallId)
    requires ConfWins(w, k) && w.db.confirmations[w.calls[k].cid] == w.calls[k].cseen
    ensures var c := w.calls[k]; var v := Do(w, ConfCommit(k));
            c.cid in v.db.confirmations && v.db.confirmations[c.cid].row == ConfTransform(c.cseen.row, c.cop, c.now)
  {
  }

  lemma OnwardConfirmation(w: World, w': World, id: string)
    requires Onward(w, w') && id in w.db.confirmations
    ensures id in w'.db.confirmations && ConfGrows(w.db.confirmations[id].row, w'.db.confirmations[id].row)
  {
  }

  /* ------------------------------------------------------------------ grants */

  /** Every grant goes back to the Director: its ratification is a resolved decision, resolved on the Director's
      word and truly so, whose context embeds the hash of this very spec and whose date sets the
      re-presentation date.  No grant can rest on a resolution made under a grant. */
  lemma EveryGrantTracesToTheDirector(hash: Hash, steps: seq<Step>, id: string) returns (spec: Spec)
    requires id in Reached(hash, steps).db.grants
    ensures var db := Reached(hash, steps).db; var g := db.grants[id].row;
            && g.ratificationRef in db.decisions
            && var d := db.decisions[g.ratificationRef].row;
            && d.resolution.Some? && var r := d.resolution.value;
            && r.mode in {DirectorDirect, DirectorViaProxy} && ClaimIsTrue(hash, db, d, r.mode, r.ref, r.answer)
            && GrantSays(g, spec) && Embeds(d.context, "grant-spec-hash:" + hash(Canonical(spec)))
            && g.representationDue == r.resolvedAt + spec.representationDays * 86400000
  {
    hide ClaimIsTrue, Justified;
    var w := Reached(hash, steps);
    ReachedInv(hash, steps);
    GrantRowKnows(w, id);
    var g := w.db.grants[id].row;
    var days :| RatifiedBy(hash, w.db, g.ratificationRef, SpecOf(g, days), g.representationDue - days * DAY_MS);
    spec := SpecOf(g, days);
    DecisionIsOk(w, g.ratificationRef);
    var d := w.db.decisions[g.ratificationRef].row;
    OccursMeans(SPEC_MARKER + hash(Canonical(spec)), d.context);
    JustifiedMeans(hash, w.db, d, d.resolution.value.mode, d.resolution.value.ref, d.resolution.value.answer);
  }

  /** The row carries the spec, term by term. */
  predicate GrantSays(g: Grant, spec: Spec) {
    && g.cls == spec.cls && g.allowedActions == spec.allowedActions && g.reversibleOnly == spec.reversibleOnly
    && g.parentKinds == spec.parentKinds && g.excludedRefs == spec.excludedRefs && g.excludedClasses == spec.excludedClasses
  }

  predicate StandsAt(text: string, words: string, i: nat) {
    i + |words| <= |text| && text[i..i + |words|] == words
  }

  /** The words stand somewhere in the text. */
  ghost predicate Embeds(text: string, words: string) {
    exists i: nat :: StandsAt(text, words, i)
  }

  lemma StandsNext(text: string, words: string, i: nat)
    requires text != []
    ensures StandsAt(text[1..], words, i) <==> StandsAt(text, words, i + 1)
  {
    if i + 1 + |words| <= |text| { assert text[1..][i..i + |words|] == text[i + 1..i + 1 + |words|]; }
  }

  lemma {:induction false} OccursMeans(words: string, text: string)
    ensures Occurs(words, text) <==> Embeds(text, words)
    decreases |text|
  {
    assert words <= text <==> StandsAt(text, words, 0);
    hide StandsAt;
    if text != [] {
      OccursMeans(words, text[1..]);
      forall i: nat ensures StandsAt(text[1..], words, i) <==> StandsAt(text, words, i + 1) { StandsNext(text, words, i); }
      if Embeds(text, words) {
        var i: nat :| StandsAt(text, words, i);
        assert i > 0 ==> StandsAt(text[1..], words, i - 1);
      }
    } else {
      NothingStands(words);
    }
  }

  lemma NothingStands(words: string)
    ensures forall i: nat :: StandsAt("", words, i) ==> i == 0
  {
  }

  /** However many mints race on a ratification, it yields one grant, and its consumption row names it. */
  lemma OneGrantPerRatification(hash: Hash, steps: seq<Step>, a: string, b: string)
    requires var db := Reached(hash, steps).db; a in db.grants && b in db.grants
    requires var db := Reached(hash, steps).db; db.grants[a].row.ratificationRef == db.grants[b].row.ratificationRef
    ensures a == b && SpentOn(Reached(hash, steps).db, Reached(hash, steps).db.grants[a].row.ratificationRef, a)
  {
    ReachedInv(hash, steps);
    GrantRowKnows(Reached(hash, steps), a);
    GrantRowKnows(Reached(hash, steps), b);
  }

  /** Each grant supersedes the next. */
  ghost predicate Chain(grants: Table<Grant>, ids: seq<string>) {
    && (forall i | 0 <= i < |ids| :: ids[i] in grants)
    && (forall i | 0 < i < |ids| :: grants[ids[i - 1]].row.supersedes == Some(ids[i]))
  }

  /** Following `supersedes` the version falls by one each time, so no chain is longer than the version
      it starts from, and none goes round in a circle. */
  lemma {:induction false} SupersedeChainsEnd(hash: Hash, steps: seq<Step>, ids: seq<string>)
    requires ids != [] && Chain(Reached(hash, steps).db.grants, ids)
    ensures var grants := Reached(hash, steps).db.grants;
            grants[ids[|ids| - 1]].row.version + |ids| - 1 == grants[ids[0]].row.version && |ids| <= grants[ids[0]].row.version
    decreases |ids|
  {
    var w := Reached(hash, steps);
    ReachedInv(hash, steps);
    GrantRowKnows(w, ids[|ids| - 1]);
    if |ids| > 1 {
      var front := ids[..|ids| - 1];
      GrantRowKnows(w, front[|front| - 1]);
      SupersedeChainsEnd(hash, steps, front);
    }
  }

  /** `supersededBy` is written at most once, and names a grant that itself says it supersedes this one
      and carries the next version. */
  lemma SupersededOnceBySuccessor(hash: Hash, steps: seq<Step>, more: seq<Step>, id: string)
    requires id in Reached(hash, steps).db.grants && Reached(hash, steps).db.grants[id].row.supersededBy.Some?
    ensures var g := Reached(hash, steps).db.grants[id].row; var db := Reached(hash, steps + more).db;
            && id in db.grants && db.grants[id].row == g && g.state == Superseded
            && g.supersededBy.value in db.grants
            && var s := db.grants[g.supersededBy.value].row; s.supersedes == Some(id) && s.version == g.version + 1
  {
    hide Inv, Onward;
    var w := Reached(hash, steps);
    ReachedInv(hash, steps);
    RunSafe(w, more);
    RunAppend(Init(hash), steps, more);
    GrantRowKnows(w, id);
    GrantRowKnows(w, w.db.grants[id].row.supersededBy.value);
    OnwardGrant(w, Run(w, more), id);
    OnwardGrant(w, Run(w, more), w.db.grants[id].row.supersededBy.value);
  }

  /* ------------------------------------------------------------------ the phases of one decision */

  /** From one world to the next a decision stays where it is, is raised, or takes one edge of the table. */
  ghost predicate OneEdge(w: World, w': World, id: string) {
    if id in w.db.decisions then
      && id in w'.db.decisions
      && var p, q := w.db.decisions[id].row.status, w'.db.decisions[id].row.status; q == p || q in Exits(p)
    else id in w'.db.decisions ==> w'.db.decisions[id].row.status == Raised
  }

  lemma ResolvesRow(d: Decision, v: Verb, now: int)
    requires Allowed(d, v)
    ensures v.Resolve? ==> Transform(d, v, now).resolution.Some?
  {
  }

  lemma CommitMovesAlongOneEdge(w: World, s: Step, id: string)
    requires Inv(w) && s.Commit? && s.k in w.calls && w.calls[s.k].Loaded?
    ensures OneEdge(w, Do(w, s), id)
  {
    hide Inv, Grows, Allowed, Transform, VerbOk, DecisionOk, AfterCommit;
    LoadedKnows(w, s.k);
    var c := w.calls[s.k];
    TransformMoves(c.seen.row, c.verb, c.now);
    if Allowed(c.seen.row, c.verb) {
      ResolvesRow(c.seen.row, c.verb, c.now);
      AfterCommitShape(Written(w, c), s.k, c.id, c.verb, c.before, Transform(c.seen.row, c.verb, c.now));
    }
  }

  lemma RaiseStartsRaised(w: World, s: Step, id: string)
    requires s.Raise?
    ensures OneEdge(w, Do(w, s), id)
  {
  }

  lemma StepMovesAlongOneEdge(w: World, s: Step, id: string)
    requires Inv(w)
    ensures OneEdge(w, Do(w, s), id)
  {
    hide Inv, Do;
    if s.Raise? { RaiseStartsRaised(w, s, id); }
    else if s.Commit? && s.k in w.calls && w.calls[s.k].Loaded? { CommitMovesAlongOneEdge(w, s, id); }
    else { QuietDecisions(w, s); }
  }

  lemma TransformMoves(d: Decision, v: Verb, now: int)
    requires Allowed(d, v)
    ensures Transform(d, v, now).status == d.status || Transform(d, v, now).status in Exits(d.status)
  {
  }

  /** Only a raise and a winning commit write decision rows. */
  lemma QuietDecisions(w: World, s: Step)
    requires !s.Raise? && (s.Commit? ==> !(s.k in w.calls && w.calls[s.k].Loaded?))
    ensures Do(w, s).db.decisions == w.db.decisions
  {
    hide Do;
    if s.Load? { LoadKeepsRows(w, s); } else { QuietTime(w, s); }
  }

  lemma LoadKeepsRows(w: World, s: Step)
    requires s.Load?
    ensures Do(w, s).db.decisions == w.db.decisions
  {
  }

  /** The phases a decision is seen in along a run, each change noted once. */
  function Phases(w: World, steps: seq<Step>, id: string): (ps: seq<Phase>)
    decreases |steps|
  {
    var here := if id in w.db.decisions then [w.db.decisions[id].row.status] else [];
    if steps == [] then here
    else
      var rest := Phases(Do(w, steps[0]), steps[1..], id);
      if here != [] && rest != [] && here[0] == rest[0] then rest else here + rest
  }

  lemma {:induction false} PhasesWalk(w: World, steps: seq<Step>, id: string)
    requires Inv(w)
    ensures var ps := Phases(w, steps, id);
            && Walk(ps)
            && (id in w.db.decisions ==> ps != [] && ps[0] == w.db.decisions[id].row.status)
            && (id !in w.db.decisions && ps != [] ==> ps[0] == Raised)
    decreases |steps|
  {
    hide Inv, Do;
    if steps != [] {
      StepSafe(w, steps[0]);
      StepMovesAlongOneEdge(w, steps[0], id);
      PhasesWalk(Do(w, steps[0]), steps[1..], id);
    }
  }

  /** In any run a decision starts out raised, makes at most four moves, each an edge of the table, and
      never leaves a terminal phase. */
  lemma DecisionsTerminate(hash: Hash, steps: seq<Step>, id: string)
    ensures var ps := Phases(Init(hash), steps, id);
            && |ps| <= 5 && Walk(ps) && (ps != [] ==> ps[0] == Raised)
            && forall i | 0 <= i < |ps| :: Terminal(ps[i]) ==> i == |ps| - 1
  {
    InitInv(hash);
    PhasesWalk(Init(hash), steps, id);
    var ps := Phases(Init(hash), steps, id);
    if ps != [] { WalksEnd(ps); }
  }

  /** In every reachable row the phase fields are set exactly in their phases, and the phase buckets
      account for at least the decision's age. */
  lemma RowsMatchTheirPhase(hash: Hash, steps: seq<Step>, id: string)
    requires id in Reached(hash, steps).db.decisions
    ensures var db := Reached(hash, steps).db; var d := db.decisions[id].row;
            && d.id == id
            && (d.resolution.Some? <==> d.status in {Phase.Resolved, Executed})
            && (d.mergedInto.Some? <==> d.status == Merged)
            && (d.disposedReason.Some? <==> d.status == Disposed)
            && (d.mergedInto.Some? ==> d.mergedInto.value != id && d.mergedInto.value in db.decisions)
            && (d.disposedReason.Some? ==> !Blank(d.disposedReason.value))
            && Total(d.dwell) >= d.enteredAt - d.createdAt
  {
    ReachedInv(hash, steps);
    assert DecisionOk(hash, Reached(hash, steps).db, id);
  }

  /* ------------------------------------------------------------------ time */

  /** As long as no clock reading has been behind an earlier one: every decision's buckets add up exactly,
      and no phase was entered, and no call has read the clock, after the latest reading. */
  ghost predicate OnTime(w: World) {
    w.past.steady ==>
      && (forall id {:trigger PunctualRow(w, id)} | id in w.db.decisions :: PunctualRow(w, id))
      && (forall k {:trigger PunctualCall(w, k)} | k in w.calls && w.calls[k].Loaded? :: PunctualCall(w, k))
  }

  ghost predicate PunctualRow(w: World, id: string) {
    id in w.db.decisions && var d := w.db.decisions[id].row;
    d.enteredAt <= w.past.clock && Total(d.dwell) == d.enteredAt - d.createdAt
  }

  ghost predicate PunctualCall(w: World, k: CallId) {
    k in w.calls && w.calls[k].Loaded? && w.calls[k].seen.row.enteredAt <= w.calls[k].now <= w.past.clock
  }

  /** No call has newly loaded a row. */
  ghost predicate NoneLoaded(w: World, w': World) {
    forall k | k in w'.calls && w'.calls[k].Loaded? :: k in w.calls && w.calls[k] == w'.calls[k]
  }

  ghost predicate SameTime(w: World, w': World) {
    w'.db.decisions == w.db.decisions && w'.past.clock == w.past.clock && w'.past.steady == w.past.steady && NoneLoaded(w, w')
  }

  lemma SameTimeOnTime(w: World, w': World)
    requires OnTime(w) && SameTime(w, w')
    ensures OnTime(w')
  {
    if w'.past.steady {
      forall id | id in w'.db.decisions ensures PunctualRow(w', id) { assert PunctualRow(w, id); }
      forall k | k in w'.calls && w'.calls[k].Loaded? ensures PunctualCall(w', k) { assert PunctualCall(w, k); }
    }
  }

  /** One decision row was written, no later than the clock now shows. */
  lemma WriteOnTime(w: World, w': World, id: string)
    requires OnTime(w) && NoneLoaded(w, w') && w.past.clock <= w'.past.clock && (w'.past.steady ==> w.past.steady)
    requires id in w'.db.decisions && w'.db.decisions == w.db.decisions[id := w'.db.decisions[id]]
    requires w'.past.steady ==> PunctualRow(w', id)
    ensures OnTime(w')
  {
    if w'.past.steady {
      forall j | j in w'.db.decisions ensures PunctualRow(w', j) { assert j != id ==> PunctualRow(w, j); }
      forall k | k in w'.calls && w'.calls[k].Loaded? ensures PunctualCall(w', k) { assert PunctualCall(w, k); }
    }
  }

  lemma RaiseOnTime(w: World, k: CallId, id: string, input: RaiseInput, rawId: string, now: int)
    requires OnTime(w) && id !in w.db.decisions
    ensures OnTime(DoRaise(w, k, id, input, rawId, now))
  {
    hide OnTime;
    WriteOnTime(w, DoRaise(w, k, id, input, rawId, now), id);
  }

  lemma LoadOnTime(w: World, s: Step)
    requires OnTime(w) && s.Load?
    ensures OnTime(Do(w, s))
  {
    var w' := Do(w, s);
    if w'.past.steady && w' != w {
      forall id | id in w'.db.decisions ensures PunctualRow(w', id) { assert PunctualRow(w, id); }
      forall k | k in w'.calls && w'.calls[k].Loaded? ensures PunctualCall(w', k) {
        if k != s.k { assert PunctualCall(w, k); } else { assert w.calls[k].id in w.db.decisions ==> PunctualRow(w, w.calls[k].id); }
      }
    }
  }

  lemma CommitShape(w: World, k: CallId)
    requires Inv(w) && k in w.calls && w.calls[k].Loaded?
    ensures var c := w.calls[k]; var w' := DoCommit(w, k);
            && c.id in w.db.decisions && Allowed(c.seen.row, c.verb)
            && NoneLoaded(w, w') && w'.past.clock == w.past.clock && w'.past.steady == w.past.steady
            && (w'.db.decisions == w.db.decisions
                || (w.db.decisions[c.id] == c.seen && c.id in w'.db.decisions && w'.db.decisions[c.id].row == Transform(c.seen.row, c.verb, c.now)
                    && w'.db.decisions == w.db.decisions[c.id := w'.db.decisions[c.id]]))
  {
    hide Inv, VerbOk, DecisionOk, Grows, Allowed, Transform;
    LoadedKnows(w, k);
  }

  lemma CommitOnTime(w: World, k: CallId)
    requires Inv(w) && OnTime(w) && k in w.calls && w.calls[k].Loaded?
    ensures OnTime(DoCommit(w, k))
  {
    hide Inv, Allowed, Transform, DoCommit, Total;
    var c := w.calls[k];
    CommitShape(w, k);
    if DoCommit(w, k).db.decisions == w.db.decisions {
      SameTimeOnTime(w, DoCommit(w, k));
    } else {
      if w.past.steady {
        assert PunctualCall(w, k) && PunctualRow(w, c.id);
        TransformPunctual(c.seen.row, c.verb, c.now);
      }
      WriteOnTime(w, DoCommit(w, k), c.id);
    }
  }

  lemma TransformPunctual(d: Decision, v: Verb, now: int)
    requires Allowed(d, v) && d.enteredAt <= now && Total(d.dwell) == d.enteredAt - d.createdAt
    ensures var e := Transform(d, v, now); Total(e.dwell) == e.enteredAt - e.createdAt && e.enteredAt <= now
  {
    DwellIsConserved(d, v, now);
  }

  lemma StepOnTime(w: World, s: Step)
    requires Inv(w) && OnTime(w)
    ensures OnTime(Do(w, s))
  {
    hide Inv, OnTime;
    if s.Raise? {
      if s.k !in w.calls && s.id !in w.db.decisions { RaiseOnTime(w, s.k, s.id, s.input, s.rawId, s.now); }
    } else if s.Load? {
      LoadOnTime(w, s);
    } else if s.Commit? && s.k in w.calls && w.calls[s.k].Loaded? {
      CommitOnTime(w, s.k);
    } else {
      QuietTime(w, s);
      SameTimeOnTime(w, Do(w, s));
    }
  }

  lemma AsideTime(w: World, w': World, k: CallId)
    requires Aside(w, w', k)
    ensures SameTime(w, w')
  {
    if w' != w {
      forall j | j in w'.calls && w'.calls[j].Loaded? ensures j in w.calls && w.calls[j] == w'.calls[j] {
        assert j in w'.calls - {k} && (w'.calls - {k})[j] == w'.calls[j];
        assert j in w.calls - {k};
      }
    }
  }

  lemma EndingTime(w: World, s: Step)
    requires s.WriteRaw? || s.ReadTargetRaw? || s.ReadOwnRaw? || s.WriteTrail? || s.Abandon?
    ensures SameTime(w, Do(w, s))
  {
    hide Unlock, RawIds;
  }

  lemma IdleCommit(w: World, k: CallId)
    requires !(k in w.calls && w.calls[k].Loaded?)
    ensures DoCommit(w, k) == w
  {
  }

  lemma QuietTime(w: World, s: Step)
    requires !s.Raise? && !s.Load? && (s.Commit? ==> !(s.k in w.calls && w.calls[s.k].Loaded?))
    ensures SameTime(w, Do(w, s))
  {
    hide Aside, DoCommit, DoWriteRaw, DoWriteTrail, DoReadTargetRaw, DoReadOwnRaw, DoAbandon;
    if Sidelong(s) { hide Do; SidelongSteps(w, s); AsideTime(w, Do(w, s), s.k); }
    else if s.Commit? { IdleCommit(w, s.k); }
    else { hide SameTime; EndingTime(w, s); }
  }

  lemma {:induction false} RunOnTime(w: World, steps: seq<Step>)
    requires Inv(w) && OnTime(w)
    ensures OnTime(Run(w, steps))
    decreases |steps|
  {
    hide Inv, OnTime, Do;
    if steps != [] {
      StepSafe(w, steps[0]);
      StepOnTime(w, steps[0]);
      RunOnTime(Do(w, steps[0]), steps[1..]);
    }
  }

  /** Over a run whose clock never went backwards, no millisecond of a decision's life is lost or counted
      twice: its phase buckets add up to exactly the time from its creation to its last transition. */
  lemma DwellAddsUpExactly(hash: Hash, steps: seq<Step>, id: string)
    requires id in Reached(hash, steps).db.decisions && Reached(hash, steps).past.steady
    ensures var d := Reached(hash, steps).db.decisions[id].row; Total(d.dwell) == d.enteredAt - d.createdAt
  {
    InitInv(hash);
    RunOnTime(Init(hash), steps);
    assert PunctualRow(Reached(hash, steps), id);
  }

  /* ------------------------------------------------------------------ barriers */

  /** A barrier is held only by a call in flight that is inside the section it guards. */
  ghost predicate LocksOk(w: World) {
    forall g {:trigger g in w.locks} | g in w.locks :: w.locks[g] in w.calls && Barrier(w.calls[w.locks[g]]) == Some(g)
  }

  /** Call `k` takes a barrier only on entering its section, and has given it back when it is gone. */
  ghost predicate LockStep(w: World, w': World, k: CallId) {
    forall g {:trigger g in w'.locks} | g in w'.locks ::
      if w'.locks[g] == k then k in w'.calls && Barrier(w'.calls[k]) == Some(g) else g in w.locks && w.locks[g] == w'.locks[g]
  }

  lemma LocksAfter(w: World, w': World, k: CallId)
    requires LocksOk(w) && Spares(w, w', k) && LockStep(w, w', k)
    ensures LocksOk(w')
  {
  }

  lemma DecisionLocks(w: World, s: Step)
    requires LocksOk(w) && (s.Raise? || s.WriteRaw? || s.Begin? || s.Load? || s.ReadTargetRaw? || s.ReadOwnRaw? || s.WriteTrail? || s.Abandon?) && !(Opens(s) && s.k in w.calls)
    ensures LockStep(w, Do(w, s), s.k)
  {
    hide Allowed, Blank, RawIds;
    if s.Load? { assert LockStep(w, Do(w, s), s.k); }
  }

  lemma CommitLocks(w: World, s: Step)
    requires LocksOk(w) && s.Commit?
    ensures LockStep(w, Do(w, s), s.k)
  {
    hide Allowed, Transform;
  }

  lemma ProofLocks(w: World, s: Step)
    requires LocksOk(w) && (s.MintSignal? || s.MintConfirmation? || s.BeginConsume? || s.ConfLoad? || s.ConfCommit?) && !(Opens(s) && s.k in w.calls)
    ensures LockStep(w, Do(w, s), s.k)
  {
    hide ConfAllowed, ConfTransform;
  }

  lemma GrantLocks(w: World, s: Step)
    requires LocksOk(w) && (s.BeginRevoke? || s.Acquire? || s.GrantLoad? || s.GrantCommit?) && !(Opens(s) && s.k in w.calls)
    ensures LockStep(w, Do(w, s), s.k)
  {
    hide GrantTransform, Blank;
  }

  lemma MintLocks(w: World, s: Step)
    requires LocksOk(w) && (s.BeginMint? || s.ReadPrior?) && !(Opens(s) && s.k in w.calls)
    ensures LockStep(w, Do(w, s), s.k)
  {
    hide Ratifies, Consistent;
  }

  lemma WriteGrantLocks(w: World, s: Step)
    requires LocksOk(w) && (s.ConsumeRatification? || s.WriteGrant?)
    ensures LockStep(w, Do(w, s), s.k)
  {
    hide Ratifies, Consistent, NewGrant;
  }

  lemma GateLocks(w: World, s: Step)
    requires LocksOk(w) && (s.BeginResolve? || s.ReadDecision? || s.ReadAnswer?) && !(Opens(s) && s.k in w.calls)
    ensures LockStep(w, Do(w, s), s.k)
  {
    hide Consumable, Expected;
  }

  lemma ReadProofLocks(w: World, k: CallId, now: int)
    requires LocksOk(w) && k in w.calls && w.calls[k].ResolvePre?
    requires forall g | g in w.db.grants :: w.db.grants[g].row.id == g
    ensures LockStep(w, DoReadProof(w, k, now), k)
  {
    hide Evaluates, PlanRequiresConfirmation;
    var req := w.calls[k].req;
    if UnderGrant(req) { assert req.ref.value[0] == 'g'; }
  }

  lemma GrantIds(w: World)
    requires Inv(w)
    ensures forall g | g in w.db.grants :: w.db.grants[g].row.id == g
  {
    forall g | g in w.db.grants ensures w.db.grants[g].row.id == g { GrantRowKnows(w, g); }
  }

  lemma StepLocks(w: World, s: Step)
    requires Inv(w) && LocksOk(w)
    ensures LocksOk(Do(w, s))
  {
    hide Inv, LocksOk, LockStep, DoReadProof;
    StepSafe(w, s);
    if !(Opens(s) && s.k in w.calls) {
      if s.Commit? { CommitLocks(w, s); }
      else if s.MintSignal? || s.MintConfirmation? || s.BeginConsume? || s.ConfLoad? || s.ConfCommit? { ProofLocks(w, s); }
      else if s.BeginRevoke? || s.Acquire? || s.GrantLoad? || s.GrantCommit? { GrantLocks(w, s); }
      else if s.BeginMint? || s.ReadPrior? { MintLocks(w, s); }
      else if s.ConsumeRatification? || s.WriteGrant? { WriteGrantLocks(w, s); }
      else if s.BeginResolve? || s.ReadDecision? || s.ReadAnswer? { GateLocks(w, s); }
      else if s.ReadProof? { GrantIds(w); ProofReadLocks(w, s); }
      else { DecisionLocks(w, s); }
      LocksAfter(w, Do(w, s), s.k);
    }
  }

  lemma ProofReadLocks(w: World, s: Step)
    requires LocksOk(w) && s.ReadProof? && forall g | g in w.db.grants :: w.db.grants[g].row.id == g
    ensures LockStep(w, Do(w, s), s.k)
  {
    hide DoReadProof;
    if s.k in w.calls && w.calls[s.k].ResolvePre? { ReadProofLocks(w, s.k, s.now); } else { NoProofRead(w, s.k, s.now); }
  }

  lemma NoProofRead(w: World, k: CallId, now: int)
    requires LocksOk(w) && !(k in w.calls && w.calls[k].ResolvePre?)
    ensures LockStep(w, DoReadProof(w, k, now), k)
  {
  }

  lemma {:induction false} RunLocks(w: World, steps: seq<Step>)
    requires Inv(w) && LocksOk(w)
    ensures LocksOk(Run(w, steps))
    decreases |steps|
  {
    hide Inv, LocksOk, Do;
    if steps != [] {
      StepSafe(w, steps[0]);
      StepLocks(w, steps[0]);
      RunLocks(Do(w, steps[0]), steps[1..]);
    }
  }

  /** No barrier outlives its call: one that is held is held by a call still inside its section, and by no
      other, so a call that is over, however it ended, blocks nobody. */
  lemma BarriersAreGivenBack(hash: Hash, steps: seq<Step>, g: string)
    requires g in Reached(hash, steps).locks
    ensures var w := Reached(hash, steps); w.locks[g] in w.calls && Barrier(w.calls[w.locks[g]]) == Some(g)
  {
    InitInv(hash);
    RunLocks(Init(hash), steps);
  }
}
