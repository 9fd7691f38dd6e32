/** The repositories' methods, one storage operation at a time, among callers they know nothing about.

    A `Hub` is the world as one caller meets it: between any two of its own storage operations the
    others do whatever they like (`others`, any steps at all of other calls).  Every method keeps `Valid`,
    which says that the world is one some run of the machine reaches, so what holds of all runs holds
    before and after each of them. */
module RailMethods {
  import opened Substrate
  import opened Decisions
  import opened DirectorProof
  import opened ClassGrants
  import opened Rail
  import opened RailSafety
  import opened RailTheorems
  import opened VerbRules

  /** How an update ends: on a committed row, on a missing row, on a row the verb is not allowed on,
      with every attempt lost to another writer, or still waiting for a barrier. */
  datatype Outcome<R> = Updated(row: R) | Missing | Rejected | Exhausted | Waiting

  /** What other callers' steps leave call `me` with. */
  ghost predicate Undisturbed(w: World, w': World, me: CallId) {
    && (me in w.calls <==> me in w'.calls) && (me in w.calls ==> w'.calls[me] == w.calls[me])
    && (forall g | g in w.locks && w.locks[g] == me ::
          LockedBy(w'.locks, g, me) && (g in w.db.grants ==> g in w'.db.grants && w'.db.grants[g] == w.db.grants[g]))
  }

  lemma SparedUndisturbed(w: World, w': World, k: CallId, me: CallId)
    requires Spares(w, w', k) && k != me
    ensures Undisturbed(w, w', me)
  {
  }

  lemma UndisturbedTransitive(a: World, b: World, c: World, me: CallId)
    requires Undisturbed(a, b, me) && Undisturbed(b, c, me)
    ensures Undisturbed(a, c, me)
  {
  }

  /** Whatever other callers do meanwhile, a call's own state, the barriers it holds and the grants behind
      them stay as they are: a barrier excludes every revoke and supersede until it is given back. */
  lemma {:induction false} OthersLeaveMeAlone(w: World, steps: seq<Step>, me: CallId)
    requires Inv(w) && forall s | s in steps :: s.k != me
    ensures Undisturbed(w, Run(w, steps), me)
    decreases |steps|
  {
    hide Inv, Do, Undisturbed, Onward, Spares;
    if steps == [] {
      SelfUndisturbed(w, me);
    } else {
      assert steps[0] in steps;
      StepSafe(w, steps[0]);
      SparedUndisturbed(w, Do(w, steps[0]), steps[0].k, me);
      OthersLeaveMeAlone(Do(w, steps[0]), steps[1..], me);
      UndisturbedTransitive(w, Do(w, steps[0]), Run(w, steps), me);
    }
  }

  lemma SelfUndisturbed(w: World, me: CallId)
    ensures Undisturbed(w, w, me)
  {
  }

  /** What a load finds. */
  lemma LoadFinds(w: World, me: CallId, id: string, verb: Verb, before: Option<Decision>, now: int)
    requires me in w.calls && w.calls[me] == Ready(id, verb, before)
    ensures var w' := Do(w, Load(me, now));
            && w'.db == w.db
            && if id in w.db.decisions && Allowed(w.db.decisions[id].row, verb)
               then me in w'.calls && w'.calls[me] == Loaded(id, verb, before, w.db.decisions[id], now)
               else me !in w'.calls
  {
  }

  /** What a commit does: if the row has not moved since, it is replaced by its transform; else the call
      is back where it was before the load, and the row has a higher revision than the one loaded. */
  lemma CommitDoes(w: World, me: CallId)
    requires Inv(w) && me in w.calls && w.calls[me].Loaded?
    ensures var c := w.calls[me]; var w' := Do(w, Commit(me));
            && c.id in w.db.decisions && Allowed(c.seen.row, c.verb)
            && if Wins(w, me)
               then && w.db.decisions[c.id] == c.seen && c.id in w'.db.decisions
                    && w'.db.decisions[c.id] == Versioned(Transform(c.seen.row, c.verb, c.now), w.db.rev + 1)
               else && me in w'.calls && w'.calls[me] == Ready(c.id, c.verb, c.before) && w'.db == w.db
                    && w.db.decisions[c.id].rev > c.seen.rev
  {
    hide Inv, Grows, DecisionOk, VerbOk, Allowed, Transform;
    LoadedKnows(w, me);
    assert Seen(w.db.decisions, w.calls[me].id, w.calls[me].seen, Grows);
  }

  lemma AbandonDoes(w: World, me: CallId)
    requires me in w.calls
    ensures Do(w, Abandon(me)).db == w.db && me !in Do(w, Abandon(me)).calls
  {
  }

  /** A call that still waits for a barrier holds none. */
  lemma QueueEnds(w: World, me: CallId)
    requires me in w.calls && (w.calls[me].GrantQueued? || w.calls[me].ResolveQueued?)
    ensures Do(w, Abandon(me)).locks == w.locks
  {
  }

  lemma RowsStayOn(w: World, w': World, id: string)
    requires Onward(w, w') && id in w.db.decisions
    ensures id in w'.db.decisions && w.db.decisions[id].rev <= w'.db.decisions[id].rev
  {
  }

  /** How an update that began at revision `from` ends, in the world as it leaves it: one atomic transform as of the
      commit `at`, or a reason that holds of the row, or with the row overtaken by others at all fifty attempts. */
  ghost predicate Concluded(r: Outcome<Decision>, at: World, w: World, me: CallId, id: string, verb: Verb, before: Option<Decision>, from: nat) {
    match r
    case Updated(row) =>
      && Inv(at) && Wins(at, me) && at.calls[me].id == id && at.calls[me].verb == verb && at.calls[me].before == before
      && Allowed(at.db.decisions[id].row, verb) && w == Do(at, Commit(me))
      && row == Transform(at.db.decisions[id].row, verb, at.calls[me].now)
      && id in w.db.decisions && w.db.decisions[id].row == row
    case Missing => id !in w.db.decisions && me !in w.calls
    case Rejected => id in w.db.decisions && !Allowed(w.db.decisions[id].row, verb) && me !in w.calls
    case Exhausted => id in w.db.decisions && w.db.decisions[id].rev >= from + MAX_DECISION_RETRIES && me !in w.calls
    case Waiting => false
  }

  lemma GaveUp(at: World, w: World, me: CallId, id: string, verb: Verb, before: Option<Decision>, from: nat)
    requires id in w.db.decisions && w.db.decisions[id].rev >= from + MAX_DECISION_RETRIES && me !in w.calls
    ensures Concluded(Exhausted, at, w, me, id, verb, before, from)
  {
  }

  const MAX_DECISION_RETRIES := 50
  const MAX_PROOF_RETRIES := 20

  class Hub {
    const hash: Hash
    const me: CallId
    const others: nat -> seq<Step>
    var world: World
    var gaps: nat
    ghost var trace: seq<Step>

    ghost predicate Valid()
      reads this
    {
      world == Reached(hash, trace) && forall n: nat, s | s in others(n) :: s.k != me
    }

    constructor (hash: Hash, me: CallId, others: nat -> seq<Step>)
      requires forall n: nat, s | s in others(n) :: s.k != me
      ensures Valid() && world == Init(hash) && this.hash == hash && this.me == me && this.others == others
    {
      this.hash, this.me, this.others := hash, me, others;
      world, gaps, trace := Init(hash), 0, [];
    }

    lemma Now()
      requires Valid()
      ensures Inv(world) && world.hash == hash
    {
      ReachedInv(hash, trace);
    }

    /** The gap before the next storage operation. */
    method Gap()
      requires Valid()
      modifies this
      ensures Valid() && old(trace) <= trace && Onward(old(world), world)
      ensures (me in world.calls <==> me in old(world).calls) && (me in world.calls ==> world.calls[me] == old(world).calls[me])
      ensures Undisturbed(old(world), world, me)
    {
      hide Inv, Onward, Do;
      Now();
      OthersLeaveMeAlone(world, others(gaps), me);
      RunSafe(world, others(gaps));
      RunAppend(Init(hash), trace, others(gaps));
      world, trace := Run(world, others(gaps)), trace + others(gaps);
      gaps := gaps + 1;
    }

    /** This call's own next step. */
    method Act(s: Step)
      requires Valid()
      modifies this
      ensures Valid() && old(trace) <= trace && world == Do(old(world), s)
    {
      Now();
      RunAppend(Init(hash), trace, [s]);
      StepSafe(world, s);
      world, trace := Do(world, s), trace + [s];
    }

    /** One attempt: read, transform, commit.  `None` says that another writer's commit came in between. */
    method CasAttempt(id: string, verb: Verb, before: Option<Decision>, now: int) returns (r: Option<Outcome<Decision>>, ghost at: World)
      requires Valid() && me in world.calls && world.calls[me] == Ready(id, verb, before)
      modifies this
      ensures Valid() && old(trace) <= trace
      ensures r.Some? ==> !r.value.Exhausted? && forall from: nat :: Concluded(r.value, at, world, me, id, verb, before, from)
      ensures r.None? ==>
                && me in world.calls && world.calls[me] == Ready(id, verb, before)
                && id in world.db.decisions && world.db.decisions[id].rev > Revision(old(world).db.decisions, id)
    {
      hide Do, Inv, Onward, Undisturbed, Allowed, Transform, Run;
      at := world;
      ghost var start := world;
      Gap();
      if id in start.db.decisions { RowsStayOn(start, world, id); }
      LoadFinds(world, me, id, verb, before, now);
      if id !in world.db.decisions {
        Act(Load(me, now));
        return Some(Missing), at;
      }
      if !Allowed(world.db.decisions[id].row, verb) {
        Act(Load(me, now));
        return Some(Rejected), at;
      }
      var existing := world.db.decisions[id];
      Act(Load(me, now));
      Gap();
      at := world;
      Now();
      CommitDoes(world, me);
      var won := world.db.decisions[id].rev == existing.rev;
      Act(Commit(me));
      r := if won then Some(Updated(Transform(existing.row, verb, now))) else None;
    }

    /** The compare-and-swap loop of every decision verb.  An update that succeeds is one atomic transform of
        the row as it stood at the moment of the commit, the last thing that happened.  One that gives
        up has been overtaken by another writer's commit at every attempt. */
    method TryCasUpdate(id: string, verb: Verb, before: Option<Decision>, clock: nat -> int) returns (r: Outcome<Decision>, ghost at: World)
      requires Valid() && me in world.calls && world.calls[me] == Ready(id, verb, before)
      modifies this
      ensures Valid() && old(trace) <= trace
      ensures Concluded(r, at, world, me, id, verb, before, Revision(old(world).db.decisions, id))
    {
      hide Do, Inv, Concluded;
      at := world;
      for attempt := 0 to MAX_DECISION_RETRIES
        invariant Valid() && old(trace) <= trace && me in world.calls && world.calls[me] == Ready(id, verb, before)
        invariant attempt > 0 ==> id in world.db.decisions
        invariant Revision(world.db.decisions, id) >= Revision(old(world).db.decisions, id) + attempt
      {
        var done;
        done, at := CasAttempt(id, verb, before, clock(attempt));
        if done.Some? { return done.value, at; }
      }
      AbandonDoes(world, me);
      Act(Abandon(me));
      GaveUp(at, world, me, id, verb, before, Revision(old(world).db.decisions, id));
      r := Exhausted;
    }

    /** Writes the trail record a committed verb owes, from the captures it reads first: the other decision's for a merge, then
        its own.  One without a citation is refused. */
    method FileRecord(recordId: string, now: int, ghost entry: Entry) returns (recorded: bool, ghost first: seq<Step>, ghost second: seq<Step>)
      requires Valid() && me in world.calls && world.calls[me].TrailOwed? && world.calls[me].own.None? && world.calls[me].target.None?
      requires world.calls[me].act < |world.past.acts| && world.past.acts[world.calls[me].act] == entry
      modifies this
      ensures Valid() && old(trace) <= trace && me !in world.calls
      ensures old(trace) <= first <= second <= trace
      ensures recorded <==> entry.act != SelfDisposalAct("")
      ensures recorded ==>
                && |world.db.records| > 0 && var last := world.db.records[|world.db.records| - 1].record;
                last.id == recordId && last.createdAt == now && last.entry == entry && Sources(last.sourceRawIds, entry, Reached(hash, first), Reached(hash, second))
    {
      hide Do, Inv, Onward, Undisturbed, Run, RawIds;
      recorded, first := false, trace;
      if world.past.acts[world.calls[me].act].act.MergeAct? {
        AwaitCall(entry);
        first := trace;
        ReadTargetDoes(world, me);
        Act(ReadTargetRaw(me));
      }
      AwaitCall(entry);
      second := trace;
      ReadOwnDoes(world, me);
      Act(ReadOwnRaw(me));
      AwaitCall(entry);
      Now();
      SourcesRead(world.calls[me], entry, Reached(hash, first), Reached(hash, second));
      WriteTrailDoes(world, me, recordId, now);
      recorded := world.past.acts[world.calls[me].act].act != SelfDisposalAct("");
      Act(WriteTrail(me, recordId, now));
    }

    /** The gap before a storage operation of a call that owes a record: it goes on owing that record. */
    method AwaitCall(ghost entry: Entry)
      requires Valid() && me in world.calls && world.calls[me].TrailOwed?
      requires world.calls[me].act < |world.past.acts| && world.past.acts[world.calls[me].act] == entry
      modifies this
      ensures Valid() && old(trace) <= trace && me in world.calls && world.calls[me] == old(world).calls[me]
      ensures world.calls[me].act < |world.past.acts| && world.past.acts[world.calls[me].act] == entry
    {
      hide Do, Inv, Onward, Undisturbed, Run;
      ghost var before := world;
      Gap();
      ActsStay(before, world);
    }

    /** A decision verb up to its commit: its checks before the loop, and the loop.  What is left of the call is the record it
        owes, if any. */
    method Decide(id: string, verb: Verb, clock: nat -> int) returns (r: Outcome<Decision>, before: Option<Decision>, ghost at: World)
      requires Valid() && me !in world.calls && !verb.Resolve?
      modifies this
      ensures Valid() && old(trace) <= trace && !r.Waiting?
      ensures before == if verb.Curate? && id in old(world).db.decisions then Some(old(world).db.decisions[id].row) else None
      ensures r.Updated? ==>
                && Wins(at, me) && at.calls[me].id == id && Allowed(at.db.decisions[id].row, verb) && Admits(old(world), id, verb)
                && r.row == Transform(at.db.decisions[id].row, verb, at.calls[me].now)
      ensures r.Missing? ==> id !in world.db.decisions
      ensures r.Rejected? ==> (id in world.db.decisions && !Allowed(world.db.decisions[id].row, verb)) || !Admits(old(world), id, verb)
      ensures r.Exhausted? ==> Revision(world.db.decisions, id) >= Revision(old(world).db.decisions, id) + 50
      ensures me in world.calls <==> r.Updated? && Owed(id, verb, before).Some? && !(verb.Curate? && before.None?)
      ensures me in world.calls ==>
                && world.calls[me].TrailOwed? && world.calls[me].own.None? && world.calls[me].target.None? && world.calls[me].act < |world.past.acts|
                && world.past.acts[world.calls[me].act] == Owed(id, verb, before).value
    {
      hide Do, Inv, Onward, Undisturbed, Allowed, Transform, Run, Admits, Owed;
      before := if verb.Curate? && id in world.db.decisions then Some(world.db.decisions[id].row) else None;
      BeginDoes(world, me, id, verb);
      Act(Begin(me, id, verb));
      at := world;
      if me !in world.calls { return Rejected, before, at; }
      r, at := TryCasUpdate(id, verb, before, clock);
      if r.Updated? { WonOwes(at, me); }
    }

    /** Every decision verb but resolve, and then the trail record it owes.  An update that succeeds is one atomic transform, as of
        its commit, of a row that does not refuse it; one that is refused is refused by the row, or outright.  A record is written
        unless the curate call had read no row, or the citation is empty; it says who did what and why, and cites the captures stored
        when they were looked for (`first` and `second` are the runs up to those reads). */
    method Change(id: string, verb: Verb, clock: nat -> int, recordId: string)
        returns (r: Outcome<Decision>, recorded: bool, before: Option<Decision>, ghost at: World, ghost first: seq<Step>, ghost second: seq<Step>)
      requires Valid() && me !in world.calls && !verb.Resolve?
      modifies this
      ensures Valid() && old(trace) <= trace && me !in world.calls && !r.Waiting?
      ensures before == if verb.Curate? && id in old(world).db.decisions then Some(old(world).db.decisions[id].row) else None
      ensures r.Updated? ==>
                && Wins(at, me) && at.calls[me].id == id && !Refuses(at.db.decisions[id].row, verb) && !RefusesOutright(old(world), id, verb)
                && Allowed(at.db.decisions[id].row, verb) && r.row == Transform(at.db.decisions[id].row, verb, at.calls[me].now)
      ensures r.Missing? ==> id !in world.db.decisions
      ensures r.Rejected? ==> (id in world.db.decisions && Refuses(world.db.decisions[id].row, verb)) || RefusesOutright(old(world), id, verb)
      ensures r.Exhausted? ==> Revision(world.db.decisions, id) >= Revision(old(world).db.decisions, id) + 50
      ensures recorded <==> r.Updated? && IsRecorded(verb, before)
      ensures recorded ==>
                && |world.db.records| > 0 && var last := world.db.records[|world.db.records| - 1].record;
                last.id == recordId && last.createdAt == clock(0) && Records(last.entry, id, verb, before)
                && old(trace) <= first <= second <= trace
                && Sources(last.sourceRawIds, last.entry, Reached(hash, first), Reached(hash, second))
    {
      hide Do, Inv, Onward, Undisturbed, Allowed, Refuses, RefusesOutright, Admits, Transform, Run, IsRecorded, Records, Owed;
      AdmitsMeans(world, id, verb);
      r, before, at := Decide(id, verb, clock);
      if r.Rejected? && id in world.db.decisions { AllowedMeans(world.db.decisions[id].row, verb); }
      if r.Updated? { AllowedMeans(at.db.decisions[id].row, verb); }
      OwedMeans(id, verb, before);
      recorded, first, second := false, trace, trace;
      if me in world.calls { recorded, first, second := FileRecord(recordId, clock(0), Owed(id, verb, before).value); }
    }

    /** `withGrantBarrier`: waits for the barrier of the grant claimed, if one is claimed. */
    method EnterBarrier(req: ResolveRequest, patience: nat) returns (entered: bool)
      requires Valid() && me !in world.calls
      modifies this
      ensures Valid() && old(trace) <= trace
      ensures entered ==> me in world.calls && world.calls[me] == ResolveStart(req)
      ensures !entered ==> me !in world.calls && (patience == 0 || (UnderGrant(req) && req.ref.value in world.locks))
    {
      hide Do, Inv, Onward, Undisturbed, Run;
      BeginResolveDoes(world, me, req);
      Act(BeginResolve(me, req));
      var waited := 0;
      while world.calls[me].ResolveQueued? && waited < patience
        invariant Valid() && old(trace) <= trace && me in world.calls
        invariant world.calls[me] == ResolveQueued(req) || world.calls[me] == ResolveStart(req)
        invariant world.calls[me].ResolveQueued? && waited > 0 ==> UnderGrant(req) && req.ref.value in world.locks
      {
        Gap();
        AcquireDoes(world, me, req);
        Act(Acquire(me));
        waited := waited + 1;
      }
      entered := world.calls[me].ResolveStart?;
      if !entered {
        AbandonDoes(world, me);
        QueueEnds(world, me);
        Act(Abandon(me));
      }
    }

    /** The copy the gate looks at, and the gate's own reads.  The gate refuses only a proof that does not hold of the stored
        rows for that copy, which is still the case that is stored. */
    method Evaluate(req: ResolveRequest, clock: nat -> int) returns (accepted: bool, found: bool, pre: Option<Decision>)
      requires Valid() && me in world.calls && world.calls[me] == ResolveStart(req)
      modifies this
      ensures Valid() && old(trace) <= trace && (accepted <==> me in world.calls)
      ensures accepted ==> pre.Some? && GatedVerb(world.calls[me], req, pre.value)
      ensures !accepted && !found ==> req.id !in world.db.decisions
      ensures !accepted && found ==> NotRouted(world, req.id) || GateRefused(world, req, clock)
    {
      hide Do, Inv, Onward, Undisturbed, Run, ProofHolds, GateRefused, PreOk, ConfGrows;
      Gap();
      ReadDecisionDoes(world, me, req);
      found := req.id in world.db.decisions;
      Act(ReadDecision(me));
      if me !in world.calls { return false, found, None; }
      pre := Some(world.calls[me].pre);
      Gap();
      Now();
      GrantIds(world);
      PreStands(world, me);
      ReadProofDoes(world, me, req, pre.value, clock(0));
      Act(ReadProof(me, clock(0)));
      if me !in world.calls {
        RefusedNow(world, req, pre.value, clock, 0);
      } else if world.calls[me].ResolveAnswered? {
        Gap();
        Now();
        PreStands(world, me);
        ReadAnswerDoes(world, me, req, pre.value, clock(1));
        Act(ReadAnswer(me, clock(1)));
        if me !in world.calls { RefusedNow(world, req, pre.value, clock, 1); }
      }
      accepted := me in world.calls;
    }

    /** `resolveDecision` as the policy layer calls it: under the barrier of the grant it claims, if any, the
        gate and then the loop.  A resolution it returns records just the answer and the executor asked
        for, with the authority the gate derived from the kind of proof named; that authority is true of
        the stored rows, and a grant relied on was active, its barrier held, at the commit. */
    method ResolveDecision(req: ResolveRequest, clock: nat -> int, patience: nat) returns (r: Outcome<Decision>, ghost at: World)
      requires Valid() && me !in world.calls
      modifies this
      ensures Valid() && old(trace) <= trace && me !in world.calls
      ensures r.Updated? ==>
                && Wins(at, me) && at.calls[me].id == req.id && at.db.decisions[req.id].row.status == Routed
                && req.id in world.db.decisions && world.db.decisions[req.id].row == r.row
                && r.row.resolution.Some? && var res := r.row.resolution.value;
                && res.answer == req.answer && res.executor == req.executor && res.rationale == req.rationale
                && ClaimIsTrue(hash, world.db, r.row, res.mode, res.ref, res.answer)
                && req.ref.Some? && ModeFits(req.ref.value, res.mode, res.ref)
                && (res.mode == ClassGrant ==> req.ref.value in at.db.grants && at.db.grants[req.ref.value].row.state == Active && LockedBy(at.locks, req.ref.value, me))
      ensures r.Missing? ==> req.id !in world.db.decisions
      ensures r.Rejected? ==> NotRouted(world, req.id) || GateRefused(world, req, clock)
      ensures r.Exhausted? ==> Revision(world.db.decisions, req.id) >= Revision(old(world).db.decisions, req.id) + MAX_DECISION_RETRIES
      ensures r.Waiting? ==> patience == 0 || (UnderGrant(req) && req.ref.value in world.locks)
    {
      hide Do, Inv, Onward, Undisturbed, Allowed, Transform, Run, ClaimIsTrue, ModeFits, GateRefused;
      at := world;
      var entered := EnterBarrier(req, patience);
      if !entered { return Waiting, at; }
      var accepted, found, pre := Evaluate(req, clock);
      RowsRise(old(world), world, old(trace), req.id);
      if !accepted { return if found then Rejected else Missing, at; }
      r, at := TryCasUpdate(req.id, world.calls[me].verb, pre, (n: nat) => clock(n + 2));
      if r.Updated? { Now(); ResolveWon(at, world, me, req); }
      if r.Rejected? { OnlyRoutedResolve(world.db.decisions[req.id].row); }
    }

    /** The loop behind both writers of a confirmation.  Whoever gets through found it unanswered, or
        consumable, at the very moment of the commit. */
    method UpdateConfirmation(id: string, op: ConfOp, clock: nat -> int) returns (r: Outcome<Confirmation>, ghost at: World)
      requires Valid() && me in world.calls && world.calls[me] == ConfReady(id, op)
      modifies this
      ensures Valid() && old(trace) <= trace && me !in world.calls && !r.Waiting?
      ensures r.Updated? ==>
                && Inv(at) && ConfWins(at, me) && at.calls[me].cid == id && at.calls[me].cop == op && world == Do(at, ConfCommit(me))
                && ConfAllowed(at.db.confirmations[id].row, op, at.calls[me].now)
                && r.row == ConfTransform(at.db.confirmations[id].row, op, at.calls[me].now)
                && id in world.db.confirmations && world.db.confirmations[id].row == r.row
      ensures r.Missing? ==> id !in world.db.confirmations
      ensures r.Rejected? ==> id in world.db.confirmations && exists i: nat :: i < MAX_PROOF_RETRIES && !ConfAllowed(world.db.confirmations[id].row, op, clock(i))
      ensures r.Exhausted? ==> Revision(world.db.confirmations, id) >= Revision(old(world).db.confirmations, id) + MAX_PROOF_RETRIES
    {
      hide Do, Inv, Onward, Undisturbed, ConfAllowed, ConfTransform, Run;
      at := world;
      var attempt := 0;
      while attempt < MAX_PROOF_RETRIES
        invariant 0 <= attempt <= MAX_PROOF_RETRIES
        invariant Valid() && old(trace) <= trace && me in world.calls && world.calls[me] == ConfReady(id, op)
        invariant Revision(world.db.confirmations, id) >= Revision(old(world).db.confirmations, id) + attempt
      {
        ghost var start := world;
        Gap();
        if id in start.db.confirmations { ConfirmationsStayOn(start, world, id); }
        ConfLoadFinds(world, me, id, op, clock(attempt));
        if id !in world.db.confirmations {
          Act(ConfLoad(me, clock(attempt)));
          return Missing, at;
        }
        if !ConfAllowed(world.db.confirmations[id].row, op, clock(attempt)) {
          Act(ConfLoad(me, clock(attempt)));
          return Rejected, at;
        }
        var existing := world.db.confirmations[id];
        Act(ConfLoad(me, clock(attempt)));
        Gap();
        at := world;
        Now();
        ConfCommitDoes(world, me);
        if world.db.confirmations[id].rev == existing.rev {
          Act(ConfCommit(me));
          return Updated(ConfTransform(existing.row, op, clock(attempt))), at;
        }
        Act(ConfCommit(me));
        attempt := attempt + 1;
      }
      AbandonDoes(world, me);
      Act(Abandon(me));
      r := Exhausted;
    }

    /** `consumeConfirmation`.  If it does not consume, the confirmation is not there, or is consumed, bound to something else
        or expired, or was overtaken by another writer at every attempt. */
    method ConsumeConfirmation(id: string, expected: Expectation, consumer: string, clock: nat -> int) returns (r: Outcome<Confirmation>, ghost at: World)
      requires Valid() && me !in world.calls
      modifies this
      ensures Valid() && old(trace) <= trace && me !in world.calls
      ensures r.Updated? ==>
                && id in at.db.confirmations && var c := at.db.confirmations[id].row;
                c.consumedAt == None && Meets(c, expected) && r.row.consumedAt.Some? && r.row.consumedAt.value <= c.expiresAt
                && r.row.consumedBy == Some(consumer) && Meets(r.row, expected) && r.row.answeredBy == c.answeredBy
      ensures match r
              case Updated(row) => id in world.db.confirmations && world.db.confirmations[id].row == row
              case Missing => id !in world.db.confirmations
              case Rejected =>
                && id in world.db.confirmations && var c := world.db.confirmations[id].row;
                c.consumedAt.Some? || !Meets(c, expected) || exists i: nat :: i < MAX_PROOF_RETRIES && clock(i) > c.expiresAt
              case Exhausted => Revision(world.db.confirmations, id) >= Revision(old(world).db.confirmations, id) + MAX_PROOF_RETRIES
              case Waiting => false
    {
      hide Do, Inv, Onward, Run;
      ConsumeDoes(world, me, id, expected, consumer);
      Act(BeginConsume(me, id, expected, consumer));
      r, at := UpdateConfirmation(id, Consume(expected, consumer), clock);
    }

    /** `mintSignal`: the signal is stored first, and then answers the confirmation it names, if nothing has. */
    method MintSignal(id: string, signal: Signal, clock: nat -> int) returns (bound: Option<Outcome<Confirmation>>)
      requires Valid() && me !in world.calls && id !in world.db.signals
      modifies this
      ensures Valid() && old(trace) <= trace && me !in world.calls && id in world.db.signals && world.db.signals[id] == signal
      ensures bound.Some? <==> Cites(signal.confirmationId)
      ensures bound.Some? && bound.value.Updated? ==>
                && signal.confirmationId.Some? && signal.confirmationId.value in world.db.confirmations
                && world.db.confirmations[signal.confirmationId.value].row == bound.value.row && bound.value.row.answeredBy == Some(id)
      ensures bound.Some? ==> signal.confirmationId.Some? && var cid := signal.confirmationId.value;
              match bound.value
              case Updated(_) => true
              case Missing => cid !in world.db.confirmations
              case Rejected => cid in world.db.confirmations && var c := world.db.confirmations[cid].row; c.answeredBy.Some? || c.consumedAt.Some?
              case Exhausted => Revision(world.db.confirmations, cid) >= Revision(old(world).db.confirmations, cid) + MAX_PROOF_RETRIES
              case Waiting => false
    {
      hide Do, Inv, Onward, Run;
      MintSignalDoes(world, me, id, signal);
      Act(Step.MintSignal(me, id, signal));
      bound := None;
      if Cites(signal.confirmationId) {
        ghost var stored := world;
        ghost var before := trace;
        var r, at := UpdateConfirmation(signal.confirmationId.value, BindAnswer(id), clock);
        bound := Some(r);
        SignalsStay(stored, world, before, id);
      }
    }

    lemma RowsRise(w: World, w': World, before: seq<Step>, id: string)
      requires w == Reached(hash, before) && w' == Reached(hash, trace) && before <= trace
      ensures Revision(w'.db.decisions, id) >= Revision(w.db.decisions, id)
    {
      hide Inv, Onward;
      ReachedInv(hash, before);
      RunSafe(w, trace[|before|..]);
      RunAppend(Init(hash), before, trace[|before|..]);
      assert before + trace[|before|..] == trace;
      if id in w.db.decisions { RowsStayOn(w, w', id); }
    }

    lemma SignalsStay(w: World, w': World, before: seq<Step>, id: string)
      requires w == Reached(hash, before) && w' == Reached(hash, trace) && before <= trace && id in w.db.signals
      ensures id in w'.db.signals && w'.db.signals[id] == w.db.signals[id]
    {
      hide Inv;
      ReachedInv(hash, before);
      RunSafe(w, trace[|before|..]);
      RunAppend(Init(hash), before, trace[|before|..]);
      assert before + trace[|before|..] == trace;
    }

    /** `transitionState` inside the grant's barrier.  Only an active grant changes, and it changes once: whether it does is
        settled by the row as it stood when the barrier was taken, in the world `taken`. */
    method TransitionGrant(id: string, op: GrantOp, clock: nat -> int, patience: nat)
        returns (r: Outcome<Grant>, ghost at: World, ghost taken: Option<World>)
      requires Valid() && me in world.calls && world.calls[me] == GrantQueued(id, op)
      modifies this
      ensures Valid() && old(trace) <= trace && me !in world.calls
      ensures r.Updated? ==>
                && Inv(at) && id in at.db.grants && at.db.grants[id].row.state == Active && LockedBy(at.locks, id, me)
                && (exists i: nat :: Retired(r.row, at.db.grants[id].row, op, clock(i)))
                && id in world.db.grants && world.db.grants[id].row == r.row
      ensures r.Missing? ==> id !in world.db.grants
      ensures r.Rejected? ==> id in world.db.grants && world.db.grants[id].row.state != Active
      ensures r.Waiting? <==> taken.None?
      ensures r.Waiting? ==> patience == 0 || id in world.locks
      ensures taken.Some? ==> LockedBy(taken.value.locks, id, me) && (id in old(world).db.grants ==> id in taken.value.db.grants)
      ensures taken.Some? && id in taken.value.db.grants ==> r.Updated? || r.Rejected?
      ensures taken.Some? && id in taken.value.db.grants ==> (r.Updated? <==> taken.value.db.grants[id].row.state == Active)
      ensures !r.Exhausted?
    {
      hide Do, Inv, Onward, Undisturbed, Run;
      at, taken := world, None;
      var waited := 0;
      while world.calls[me].GrantQueued? && waited < patience
        invariant Valid() && old(trace) <= trace && me in world.calls
        invariant world.calls[me] == GrantQueued(id, op) || (world.calls[me] == GrantReady(id, op) && LockedBy(world.locks, id, me))
        invariant id in old(world).db.grants ==> id in world.db.grants
        invariant world.calls[me].GrantQueued? && waited > 0 ==> id in world.locks
      {
        ghost var before := world;
        Gap();
        if id in before.db.grants { OnwardGrant(before, world, id); }
        GrantAcquireDoes(world, me, id, op);
        Act(Acquire(me));
        waited := waited + 1;
      }
      AbandonDoes(world, me);
      if world.calls[me].GrantQueued? {
        QueueEnds(world, me);
        Act(Abandon(me));
        return Waiting, at, None;
      }
      taken := Some(world);
      r, at := TransitionLoop(id, op, clock);
    }

    /** The loop itself.  It makes at most one attempt: while the barrier is held nobody else writes the row. */
    method TransitionLoop(id: string, op: GrantOp, clock: nat -> int) returns (r: Outcome<Grant>, ghost at: World)
      requires Valid() && me in world.calls && world.calls[me] == GrantReady(id, op) && LockedBy(world.locks, id, me)
      modifies this
      ensures Valid() && old(trace) <= trace && me !in world.calls
      ensures r.Updated? ==>
                && Inv(at) && id in at.db.grants && at.db.grants[id].row.state == Active && LockedBy(at.locks, id, me)
                && (exists i: nat :: Retired(r.row, at.db.grants[id].row, op, clock(i)))
                && id in world.db.grants && world.db.grants[id].row == r.row
      ensures r.Missing? ==> id !in world.db.grants
      ensures r.Rejected? ==> id in world.db.grants && world.db.grants[id].row.state != Active
      ensures id in old(world).db.grants ==> (r.Updated? || r.Rejected?) && (r.Updated? <==> old(world).db.grants[id].row.state == Active)
      ensures !r.Exhausted? && !r.Waiting?
    {
      hide Do, Inv, Onward, Run;
      at := world;
      for attempt := 0 to MAX_PROOF_RETRIES
        invariant Valid() && old(trace) <= trace && me in world.calls && world.calls[me] == GrantReady(id, op) && LockedBy(world.locks, id, me)
        invariant attempt == 0 && world == old(world)
      {
        Gap();
        GrantLoadFinds(world, me, id, op);
        if id !in world.db.grants {
          Act(GrantLoad(me));
          return Missing, at;
        }
        if world.db.grants[id].row.state != Active {
          Act(GrantLoad(me));
          return Rejected, at;
        }
        var existing := world.db.grants[id];
        Act(GrantLoad(me));
        Gap();
        at := world;
        Now();
        assert world.db.grants[id].rev == existing.rev;
        GrantCommitDoes(world, me, clock(attempt));
        Act(GrantCommit(me, clock(attempt)));
        return Updated(GrantTransform(existing.row, op, clock(attempt))), at;
      }
    }

    /** The row of a new grant: the checks, the ratification spent, the row written.  A refusal says which check failed. */
    method WriteNewGrant(m: MintRequest, gid: string, now: int) returns (refused: Option<MintRefusal>)
      requires Valid() && me !in world.calls && "grant-" <= gid
      modifies this
      ensures Valid() && old(trace) <= trace
      ensures match refused
              case None => GrantStands(world.db, m, gid)
              case Some(NotRatified) => true
              case Some(NoSuchPrior) => Cites(m.supersedes) && m.supersedes.value !in world.db.grants
              case Some(AlreadySpent) => m.ratificationRef in world.db.ratifications
              case Some(IdTaken) => gid in world.db.grants
      ensures refused == Some(NotRatified) <==> Unratified(old(world), m)
      ensures if refused.None? && Cites(m.supersedes) then me in world.calls && world.calls[me] == GrantQueued(m.supersedes.value, MarkSuperseded(gid))
              else me !in world.calls
    {
      hide Do, Inv, Onward, Undisturbed, Run, GrantStands, Unratified;
      BeginMintDoes(world, me, m);
      Act(BeginMint(me, m));
      if me !in world.calls { return Some(NotRatified); }
      Gap();
      ReadPriorDoes(world, me, m);
      Act(ReadPrior(me));
      if me !in world.calls { return Some(NoSuchPrior); }
      Gap();
      ConsumeDoesOnce(world, me, m, gid);
      Act(ConsumeRatification(me, gid));
      if me !in world.calls { return Some(AlreadySpent); }
      Gap();
      Now();
      refused := if gid in world.db.grants then Some(IdTaken) else None;
      WriteGrantDoes(world, me, m, gid, now);
      Act(WriteGrant(me, now));
    }

    /** `mintGrant`, with the policy layer's check of the ratification.  A refusal says which check failed, and writes no grant.
        The grant row can be there although superseding the prior grant failed: that comes last, and lands if and only if
        the prior is still active when this call takes its barrier, in the world `taken`. */
    method MintGrant(m: MintRequest, gid: string, clock: nat -> int, patience: nat)
        returns (refused: Option<MintRefusal>, superseded: Option<Outcome<Grant>>, ghost taken: Option<World>)
      requires Valid() && me !in world.calls && "grant-" <= gid
      modifies this
      ensures Valid() && old(trace) <= trace && me !in world.calls
      ensures match refused
              case None => GrantStands(world.db, m, gid)
              case Some(NotRatified) => true
              case Some(NoSuchPrior) => Cites(m.supersedes) && m.supersedes.value !in world.db.grants
              case Some(AlreadySpent) => m.ratificationRef in world.db.ratifications
              case Some(IdTaken) => gid in world.db.grants
      ensures refused == Some(NotRatified) <==> Unratified(old(world), m)
      ensures superseded.Some? <==> refused.None? && Cites(m.supersedes)
      ensures superseded.Some? ==>
                && (taken.None? <==> superseded.value.Waiting?)
                && (taken.None? ==> patience == 0 || m.supersedes.value in world.locks)
                && (taken.Some? ==> m.supersedes.value in taken.value.db.grants && LockedBy(taken.value.locks, m.supersedes.value, me)
                                    && (superseded.value.Updated? || superseded.value.Rejected?)
                                    && (superseded.value.Updated? <==> taken.value.db.grants[m.supersedes.value].row.state == Active))
      ensures superseded.Some? && superseded.value.Updated? ==>
                var g := superseded.value.row;
                && m.supersedes.value in world.db.grants && world.db.grants[m.supersedes.value].row == g
                && g.state == Superseded && g.supersededBy == Some(gid)
      ensures superseded.Some? && superseded.value.Rejected? ==>
                m.supersedes.value in world.db.grants && world.db.grants[m.supersedes.value].row.state != Active
    {
      hide Do, Inv, Onward, Undisturbed, Run, GrantStands, Unratified;
      superseded, taken := None, None;
      refused := WriteNewGrant(m, gid, clock(0));
      if refused.None? && Cites(m.supersedes) {
        ghost var written, before := world, trace;
        PriorStands(world.db, m, gid);
        ghost var at;
        var r;
        r, at, taken := TransitionGrant(m.supersedes.value, MarkSuperseded(gid), (n: nat) => clock(n + 1), patience);
        superseded := Some(r);
        GrantStays(written, world, before, m, gid);
      }
    }

    lemma GrantStays(w: World, w': World, before: seq<Step>, m: MintRequest, gid: string)
      requires w == Reached(hash, before) && w' == Reached(hash, trace) && before <= trace && GrantStands(w.db, m, gid)
      ensures GrantStands(w'.db, m, gid)
    {
      hide Inv;
      ReachedInv(hash, before);
      RunSafe(w, trace[|before|..]);
      RunAppend(Init(hash), before, trace[|before|..]);
      assert before + trace[|before|..] == trace;
    }
  }

  /** The confirmation is for what its consumer expects. */
  predicate Meets(c: Confirmation, e: Expectation) {
    c.decisionId == e.decisionId && c.promptHash == e.promptHash && c.answerHash == e.answerHash && c.planHash == e.planHash
  }

  /** The row retired: a revoke revokes it, a successor supersedes it and is named by it, and nothing else of it changes. */
  predicate Retired(b: Grant, a: Grant, op: GrantOp, now: int) {
    match op
    case Revoke(_) => b == a.(state := Revoked, updatedAt := now)
    case MarkSuperseded(next) => b == a.(state := Superseded, supersededBy := Some(next), updatedAt := now)
  }

  /** The grant row minted for a request: its spec and lineage, and the ratification spent on it. */
  ghost predicate GrantStands(db: Store, m: MintRequest, gid: string) {
    && gid in db.grants && var g := db.grants[gid].row;
    && g.id == gid && g.ratificationRef == m.ratificationRef && GrantSays(g, m.spec) && g.supersedes == m.supersedes
    && VersionOk(db, g.supersedes, g.version) && SpentOn(db, m.ratificationRef, gid)
  }

  /** Why a mint writes no grant. */
  datatype MintRefusal = NotRatified | NoSuchPrior | AlreadySpent | IdTaken

  /** The ratification is missing, not resolved, not on the Director's word, or does not carry the hash of this very spec; or
      the spec contradicts itself, granting only reversible actions and one that is not. */
  ghost predicate Unratified(w: World, m: MintRequest) {
    || m.ratificationRef !in w.db.decisions
    || (var d := w.db.decisions[m.ratificationRef].row;
        || d.status !in {Phase.Resolved, Executed}
        || d.resolution == None || d.resolution.value.mode !in {DirectorDirect, DirectorViaProxy}
        || !Embeds(d.context, "grant-spec-hash:" + w.hash(Canonical(m.spec))))
    || (m.spec.reversibleOnly && exists a :: a in m.spec.allowedActions && a !in {"unblock", "approve"})
  }

  lemma UnratifiedMeans(w: World, m: MintRequest)
    ensures Unratified(w, m) <==>
              !(m.ratificationRef in w.db.decisions && Ratifies(w.hash, w.db.decisions[m.ratificationRef].row, m.spec) && Consistent(m.spec))
  {
    hide Occurs, Embeds;
    if m.ratificationRef in w.db.decisions {
      OccursMeans("grant-spec-hash:" + w.hash(Canonical(m.spec)), w.db.decisions[m.ratificationRef].row.context);
    }
  }

  lemma PriorStands(db: Store, m: MintRequest, gid: string)
    requires GrantStands(db, m, gid) && Cites(m.supersedes)
    ensures m.supersedes.value in db.grants
  {
  }

  /** The checks a verb makes before its loop. */
  predicate Admits(w: World, id: string, verb: Verb) {
    (verb.Merge? ==> verb.into != id && verb.into in w.db.decisions) && (verb.Dispose? ==> !Blank(verb.reason))
  }

  lemma AdmitsMeans(w: World, id: string, verb: Verb)
    ensures Admits(w, id, verb) <==> !RefusesOutright(w, id, verb)
  {
    if verb.Dispose? { BlankMeans(verb.reason); }
  }

  /** The mode and the stored ref follow from the kind of proof the caller names, and from nothing else. */
  predicate ModeFits(claimed: string, mode: AuthorityMode, ref: AuthorityRef) {
    if "dconf-" <= claimed then mode == DirectorDirect && ref == ProofRef(claimed)
    else if "dsig-" <= claimed then mode == DirectorViaProxy && ref == ProofRef(claimed)
    else "grant-" <= claimed && mode == ClassGrant && ref.GrantAtVersion? && ref.grantId == claimed
  }

  lemma BeginResolveDoes(w: World, me: CallId, req: ResolveRequest)
    requires me !in w.calls
    ensures var w' := Do(w, BeginResolve(me, req)); me in w'.calls && w'.calls[me] == ResolveQueued(req)
  {
  }

  lemma AcquireDoes(w: World, me: CallId, req: ResolveRequest)
    requires me in w.calls && (w.calls[me] == ResolveQueued(req) || w.calls[me] == ResolveStart(req))
    ensures var w' := Do(w, Acquire(me));
            && me in w'.calls && (w'.calls[me] == ResolveQueued(req) || w'.calls[me] == ResolveStart(req))
            && (w'.calls[me].ResolveQueued? ==> UnderGrant(req) && req.ref.value in w'.locks)
  {
  }

  lemma ReadDecisionDoes(w: World, me: CallId, req: ResolveRequest)
    requires me in w.calls && w.calls[me] == ResolveStart(req)
    ensures var w' := Do(w, ReadDecision(me));
            && w'.db == w.db && w'.hash == w.hash
            && if me in w'.calls then req.id in w.db.decisions && w'.calls[me] == ResolvePre(req, w.db.decisions[req.id].row)
               else req.id in w.db.decisions ==> NotRouted(w', req.id)
  {
  }

  ghost predicate NotRouted(w: World, id: string) {
    id in w.db.decisions && w.db.decisions[id].row.status != Routed
  }

  /** What the gate asks of the stored rows, for the case as it was read.  A confirmation is there, answered by a director's
      signal, not consumed, not expired, and bound to just this; a signal is there and the plan is reversible; a grant is
      cited by the route, there, active, not overdue, and admits the decision. */
  ghost predicate ProofHolds(w: World, req: ResolveRequest, pre: Decision, now: int) {
    req.ref.Some? && var ref := req.ref.value;
    if "dconf-" <= ref then
      && ref in w.db.confirmations && var c := w.db.confirmations[ref].row;
      && c.answeredBy.Some? && c.answeredBy.value in w.db.signals && w.db.signals[c.answeredBy.value].capturedBy.role == "director"
      && c.consumedAt == None && now <= c.expiresAt && BoundAs(w.hash, c, pre, req.answer)
    else if "dsig-" <= ref then
      ref in w.db.signals && forall i | 0 <= i < |pre.plan| :: pre.plan[i].action in {"unblock", "approve"}
    else
      && "grant-" <= ref && pre.routedTo.Some? && pre.routedTo.value.SelfDisposal? && pre.routedTo.value.classGrantRef == Some(ref)
      && ref in w.db.grants && var g := w.db.grants[ref].row;
      && g.state == Active && now <= g.representationDue && WithinGrant(g, pre)
  }

  /** The proof did not hold, at one of the gate's two clock readings, of the case that is stored. */
  ghost predicate GateRefused(w: World, req: ResolveRequest, clock: nat -> int) {
    exists pre: Decision, i: nat :: i < 2 && PreOk(w.db, req.id, pre) && !ProofHolds(w, req, pre, clock(i))
  }

  lemma RefusedNow(w: World, req: ResolveRequest, pre: Decision, clock: nat -> int, i: nat)
    requires i < 2 && PreOk(w.db, req.id, pre) && !ProofHolds(w, req, pre, clock(i))
    ensures GateRefused(w, req, clock)
  {
  }

  lemma PreStands(w: World, me: CallId)
    requires Inv(w) && me in w.calls && (w.calls[me].ResolvePre? || w.calls[me].ResolveAnswered?)
    ensures var c := w.calls[me];
            && PreOk(w.db, c.req.id, c.pre)
            && (c.ResolveAnswered? ==> c.req.ref.Some? && c.req.ref.value in w.db.confirmations && ConfGrows(c.conf, w.db.confirmations[c.req.ref.value].row))
  {
    ResolveCallKnows(w, me);
  }

  /** The verb a gate that accepts hands to the loop. */
  predicate GatedVerb(c: Call, req: ResolveRequest, pre: Decision) {
    && c.Ready? && c.id == req.id && c.before == Some(pre) && c.verb.Resolve?
    && c.verb.executor == req.executor && c.verb.answer == req.answer && c.verb.rationale == req.rationale
    && req.ref.Some? && ModeFits(req.ref.value, c.verb.mode, c.verb.ref)
  }

  lemma ConfirmationRead(w: World, me: CallId, req: ResolveRequest, pre: Decision, now: int)
    requires me in w.calls && w.calls[me] == ResolvePre(req, pre) && forall g | g in w.db.grants :: w.db.grants[g].row.id == g
    requires req.ref.Some? && "dconf-" <= req.ref.value
    ensures var w' := Do(w, ReadProof(me, now));
            && w'.db == w.db && w'.hash == w.hash
            && if me in w'.calls then
                 || GatedVerb(w'.calls[me], req, pre)
                 || (w'.calls[me].ResolveAnswered? && w'.calls[me].req == req && w'.calls[me].pre == pre && req.ref.Some? && "dconf-" <= req.ref.value
                     && w'.calls[me].conf.answeredBy.Some?)
               else !ProofHolds(w', req, pre, now)
  {
    hide Evaluates, PlanRequiresConfirmation, Consumable, Expected, Unlock;
  }

  lemma SignalRead(w: World, me: CallId, req: ResolveRequest, pre: Decision, now: int)
    requires me in w.calls && w.calls[me] == ResolvePre(req, pre) && forall g | g in w.db.grants :: w.db.grants[g].row.id == g
    requires !(req.ref.Some? && "dconf-" <= req.ref.value)
    requires req.ref.Some? && "dsig-" <= req.ref.value
    ensures var w' := Do(w, ReadProof(me, now));
            && w'.db == w.db && w'.hash == w.hash
            && if me in w'.calls then GatedVerb(w'.calls[me], req, pre)
               else !ProofHolds(w', req, pre, now)
  {
    hide PlanRequiresConfirmation, Consumable, Expected, Unlock, WithinGrant, Evaluates;
    PlanMeans(pre.plan);
  }

  lemma GrantRead(w: World, me: CallId, req: ResolveRequest, pre: Decision, now: int)
    requires me in w.calls && w.calls[me] == ResolvePre(req, pre) && forall g | g in w.db.grants :: w.db.grants[g].row.id == g
    requires !(req.ref.Some? && "dconf-" <= req.ref.value)
    requires req.ref.Some? && !("dsig-" <= req.ref.value) && "grant-" <= req.ref.value
    ensures var w' := Do(w, ReadProof(me, now));
            && w'.db == w.db && w'.hash == w.hash
            && if me in w'.calls then GatedVerb(w'.calls[me], req, pre)
               else !ProofHolds(w', req, pre, now)
  {
    hide Evaluates, PlanRequiresConfirmation, Consumable, Expected, Unlock, WithinGrant;
    if req.ref.value in w.db.grants { EvaluatesMeans(w.db.grants[req.ref.value].row, pre, now); }
  }

  lemma NoProofRead(w: World, me: CallId, req: ResolveRequest, pre: Decision, now: int)
    requires me in w.calls && w.calls[me] == ResolvePre(req, pre) && forall g | g in w.db.grants :: w.db.grants[g].row.id == g
    requires !(req.ref.Some? && "dconf-" <= req.ref.value)
    requires req.ref.Some? ==> !("dsig-" <= req.ref.value) && !("grant-" <= req.ref.value)
    ensures var w' := Do(w, ReadProof(me, now));
            && w'.db == w.db && w'.hash == w.hash
            && me !in w'.calls && !ProofHolds(w', req, pre, now)
  {
    hide Evaluates, PlanRequiresConfirmation, Consumable, Expected, Unlock, WithinGrant;
  }

  lemma OtherProofRead(w: World, me: CallId, req: ResolveRequest, pre: Decision, now: int)
    requires me in w.calls && w.calls[me] == ResolvePre(req, pre) && forall g | g in w.db.grants :: w.db.grants[g].row.id == g
    requires !(req.ref.Some? && "dconf-" <= req.ref.value)
    ensures var w' := Do(w, ReadProof(me, now));
            && w'.db == w.db && w'.hash == w.hash
            && if me in w'.calls then GatedVerb(w'.calls[me], req, pre)
               else !ProofHolds(w', req, pre, now)
  {
    hide Do, ProofHolds, GatedVerb;
    if req.ref.Some? && "dsig-" <= req.ref.value { SignalRead(w, me, req, pre, now); }
    else if req.ref.Some? && "grant-" <= req.ref.value { GrantRead(w, me, req, pre, now); }
    else { NoProofRead(w, me, req, pre, now); }
  }

  lemma PlanMeans(plan: seq<PlanAction>)
    ensures !PlanRequiresConfirmation(plan) <==> forall i | 0 <= i < |plan| :: plan[i].action in {"unblock", "approve"}
  {
  }

  lemma EvaluatesMeans(g: Grant, d: Decision, now: int)
    ensures Evaluates(g, d, now) <==> g.state == Active && now <= g.representationDue && WithinGrant(g, d)
  {
    hide WithinGrant, Covers;
    CoversMeans(g, d);
  }

  lemma ConsumableMeans(hash: Hash, c: Confirmation, d: Decision, answer: Answer, now: int)
    ensures Consumable(c, Expected(hash, d, answer), now) <==> c.consumedAt == None && now <= c.expiresAt && BoundAs(hash, c, d, answer)
  {
  }

  lemma ReadProofDoes(w: World, me: CallId, req: ResolveRequest, pre: Decision, now: int)
    requires me in w.calls && w.calls[me] == ResolvePre(req, pre) && forall g | g in w.db.grants :: w.db.grants[g].row.id == g
    ensures var w' := Do(w, ReadProof(me, now));
            && w'.db == w.db && w'.hash == w.hash
            && if me in w'.calls then
                 || GatedVerb(w'.calls[me], req, pre)
                 || (w'.calls[me].ResolveAnswered? && w'.calls[me].req == req && w'.calls[me].pre == pre && req.ref.Some? && "dconf-" <= req.ref.value
                     && w'.calls[me].conf.answeredBy.Some?)
               else !ProofHolds(w', req, pre, now)
  {
    hide Do, ProofHolds, GatedVerb;
    if req.ref.Some? && "dconf-" <= req.ref.value { ConfirmationRead(w, me, req, pre, now); } else { OtherProofRead(w, me, req, pre, now); }
  }

  lemma ReadAnswerDoes(w: World, me: CallId, req: ResolveRequest, pre: Decision, now: int)
    requires me in w.calls && w.calls[me].ResolveAnswered? && w.calls[me].req == req && w.calls[me].pre == pre
    requires req.ref.Some? && "dconf-" <= req.ref.value && w.calls[me].conf.answeredBy.Some?
    requires req.ref.value in w.db.confirmations && ConfGrows(w.calls[me].conf, w.db.confirmations[req.ref.value].row)
    ensures var w' := Do(w, ReadAnswer(me, now));
            && w'.db == w.db && w'.hash == w.hash
            && if me in w'.calls then GatedVerb(w'.calls[me], req, pre) else !ProofHolds(w', req, pre, now)
  {
    hide Consumable, Expected, BoundAs;
    var stored := w.db.confirmations[req.ref.value].row;
    ConsumableMeans(w.hash, w.calls[me].conf, pre, req.answer, now);
    BoundStays(w.hash, w.calls[me].conf, stored, pre, req.answer);
  }

  lemma BoundStays(hash: Hash, a: Confirmation, b: Confirmation, d: Decision, answer: Answer)
    requires ConfGrows(a, b)
    ensures BoundAs(hash, a, d, answer) <==> BoundAs(hash, b, d, answer)
  {
  }

  lemma ResolveWon(at: World, w: World, me: CallId, req: ResolveRequest)
    requires Inv(at) && Inv(w) && Wins(at, me) && w == Do(at, Commit(me)) && at.calls[me].verb.Resolve? && Allowed(at.db.decisions[at.calls[me].id].row, at.calls[me].verb)
    requires var v := at.calls[me].verb; v.answer == req.answer && v.executor == req.executor && v.rationale == req.rationale
    requires req.ref.Some? && ModeFits(req.ref.value, at.calls[me].verb.mode, at.calls[me].verb.ref) && at.calls[me].id == req.id
    requires req.id in w.db.decisions && w.db.decisions[req.id].row == Transform(at.db.decisions[req.id].row, at.calls[me].verb, at.calls[me].now)
    ensures at.db.decisions[req.id].row.status == Routed && w.db.decisions[req.id].row.resolution.Some? && me !in w.calls
    ensures var row := w.db.decisions[req.id].row; var res := row.resolution.value;
            && res.answer == req.answer && res.executor == req.executor && res.rationale == req.rationale
            && ClaimIsTrue(w.hash, w.db, row, res.mode, res.ref, res.answer) && ModeFits(req.ref.value, res.mode, res.ref)
            && (res.mode == ClassGrant ==> req.ref.value in at.db.grants && at.db.grants[req.ref.value].row.state == Active && LockedBy(at.locks, req.ref.value, me))
  {
    hide Inv, Grows, Justified, ClaimIsTrue, Do, Transform, VerbOk;
    LoadedKnows(at, me);
    VerdictOf(at, me);
    DecisionKnows(w, req.id);
    ResolveLeaves(at, me);
    var row := w.db.decisions[req.id].row;
    JustifiedMeans(w.hash, w.db, row, row.resolution.value.mode, row.resolution.value.ref, row.resolution.value.answer);
  }

  /** The loop refuses a resolve only for its phase. */
  lemma OnlyRoutedResolve(d: Decision)
    ensures forall v: Verb | v.Resolve? :: Allowed(d, v) <==> d.status == Routed
  {
  }

  lemma ResolveLeaves(w: World, me: CallId)
    requires Wins(w, me) && w.calls[me].verb.Resolve? && w.db.decisions[w.calls[me].id] == w.calls[me].seen
    requires Allowed(w.calls[me].seen.row, w.calls[me].verb)
    ensures me !in Do(w, Commit(me)).calls
    ensures var c := w.calls[me];
            && c.seen.row.status == Routed
            && Transform(c.seen.row, c.verb, c.now).resolution
               == Some(Resolution(c.verb.mode, c.verb.ref, c.verb.executor, c.verb.answer, c.verb.rationale, c.now))
  {
  }

  lemma DecisionKnows(w: World, id: string)
    requires Inv(w) && id in w.db.decisions
    ensures DecisionOk(w.hash, w.db, id)
  {
  }

  lemma ActsStay(w: World, w': World)
    requires Onward(w, w')
    ensures w.past.acts <= w'.past.acts
  {
  }

  lemma BeginDoes(w: World, me: CallId, id: string, verb: Verb)
    requires me !in w.calls && !verb.Resolve?
    ensures var w' := Do(w, Begin(me, id, verb));
            && w'.db == w.db && (me in w'.calls <==> Admits(w, id, verb))
            && (me in w'.calls ==>
                  w'.calls[me] == Ready(id, verb, if verb.Curate? && id in w.db.decisions then Some(w.db.decisions[id].row) else None))
  {
  }

  lemma WonOwes(w: World, me: CallId)
    requires Inv(w) && Wins(w, me) && !w.calls[me].verb.Resolve?
    ensures var c := w.calls[me]; var w' := Do(w, Commit(me)); var o := Owed(c.id, c.verb, c.before);
            if o.Some? && !(c.verb.Curate? && c.before.None?)
            then me in w'.calls && w'.calls[me] == TrailOwed(|w.past.acts|, None, None) && w'.past.acts == w.past.acts + [o.value]
            else me !in w'.calls
  {
    hide Inv, Allowed, Transform, Grows, DecisionOk;
    LoadedKnows(w, me);
  }

  lemma ReadTargetDoes(w: World, me: CallId)
    requires me in w.calls && w.calls[me].TrailOwed? && w.calls[me].target.None? && w.calls[me].own.None?
    requires w.calls[me].act < |w.past.acts| && w.past.acts[w.calls[me].act].act.MergeAct?
    ensures Do(w, ReadTargetRaw(me)) == At(w, me, w.calls[me].(target := Some(RawIds(w, w.past.acts[w.calls[me].act].act.into))))
  {
  }

  lemma ReadOwnDoes(w: World, me: CallId)
    requires me in w.calls && w.calls[me].TrailOwed? && w.calls[me].own.None? && w.calls[me].act < |w.past.acts|
    requires w.past.acts[w.calls[me].act].act.MergeAct? ==> w.calls[me].target.Some?
    ensures Do(w, ReadOwnRaw(me)) == At(w, me, w.calls[me].(own := Some(RawIds(w, w.past.acts[w.calls[me].act].decisionId))))
  {
  }

  lemma SourcesRead(c: Call, entry: Entry, first: World, second: World)
    requires c.TrailOwed? && c.own == Some(RawIds(second, entry.decisionId))
    requires c.target == if entry.act.MergeAct? then Some(RawIds(first, entry.act.into)) else None
    ensures Sources(c.own.value + Default(c.target, []), entry, first, second)
  {
  }

  lemma WriteTrailDoes(w: World, me: CallId, recordId: string, now: int)
    requires Inv(w) && me in w.calls && w.calls[me].TrailOwed? && w.calls[me].own.Some?
    ensures var a := w.calls[me].act; var w' := Do(w, WriteTrail(me, recordId, now));
            && a < |w.past.acts| && me !in w'.calls
            && (w.past.acts[a].act != SelfDisposalAct("") ==>
                  && |w'.db.records| == |w.db.records| + 1
                  && w'.db.records[|w.db.records|].record.id == recordId && w'.db.records[|w.db.records|].record.createdAt == now
                  && w'.db.records[|w.db.records|].record.sourceRawIds == w.calls[me].own.value + Default(w.calls[me].target, [])
                  && w'.db.records[|w.db.records|].record.entry == w.past.acts[a])
  {
    hide Inv;
    OwedOk(w, me);
  }

  /* ------------------------------------------------------------------ confirmations and grants, step by step */

  lemma ConfLoadFinds(w: World, me: CallId, id: string, op: ConfOp, now: int)
    requires me in w.calls && w.calls[me] == ConfReady(id, op)
    ensures var w' := Do(w, ConfLoad(me, now));
            && w'.db == w.db
            && if id in w.db.confirmations && ConfAllowed(w.db.confirmations[id].row, op, now)
               then me in w'.calls && w'.calls[me] == ConfLoaded(id, op, w.db.confirmations[id], now)
               else me !in w'.calls
  {
  }

  lemma ConfCommitDoes(w: World, me: CallId)
    requires Inv(w) && me in w.calls && w.calls[me].ConfLoaded?
    ensures var c := w.calls[me]; var w' := Do(w, ConfCommit(me));
            && c.cid in w.db.confirmations && ConfAllowed(c.cseen.row, c.cop, c.now)
            && if ConfWins(w, me)
               then && w.db.confirmations[c.cid] == c.cseen && me !in w'.calls && c.cid in w'.db.confirmations
                    && w'.db.confirmations[c.cid].row == ConfTransform(c.cseen.row, c.cop, c.now)
               else && me in w'.calls && w'.calls[me] == ConfReady(c.cid, c.cop) && w'.db == w.db
                    && w.db.confirmations[c.cid].rev > c.cseen.rev
  {
    hide Inv, ConfAllowed, ConfTransform;
    ConfLoadedKnows(w, me);
  }

  lemma ConfirmationsStayOn(w: World, w': World, id: string)
    requires Onward(w, w') && id in w.db.confirmations
    ensures id in w'.db.confirmations && w.db.confirmations[id].rev <= w'.db.confirmations[id].rev
  {
  }

  lemma ConsumeDoes(w: World, me: CallId, id: string, expected: Expectation, consumer: string)
    requires me !in w.calls
    ensures var w' := Do(w, BeginConsume(me, id, expected, consumer)); me in w'.calls && w'.calls[me] == ConfReady(id, Consume(expected, consumer)) && w'.db == w.db
  {
  }

  lemma MintSignalDoes(w: World, me: CallId, id: string, signal: Signal)
    requires me !in w.calls && id !in w.db.signals
    ensures var w' := Do(w, Step.MintSignal(me, id, signal));
            && id in w'.db.signals && w'.db.signals[id] == signal && w'.db.confirmations == w.db.confirmations
            && (if Cites(signal.confirmationId) then me in w'.calls && w'.calls[me] == ConfReady(signal.confirmationId.value, BindAnswer(id))
                else me !in w'.calls)
  {
  }

  lemma GrantAcquireDoes(w: World, me: CallId, id: string, op: GrantOp)
    requires me in w.calls && (w.calls[me] == GrantQueued(id, op) || (w.calls[me] == GrantReady(id, op) && LockedBy(w.locks, id, me)))
    ensures var w' := Do(w, Acquire(me));
            && w'.db == w.db && me in w'.calls
            && if w'.calls[me].GrantQueued? then w'.calls[me] == GrantQueued(id, op) && id in w'.locks
               else w'.calls[me] == GrantReady(id, op) && LockedBy(w'.locks, id, me)
  {
  }

  lemma GrantLoadFinds(w: World, me: CallId, id: string, op: GrantOp)
    requires me in w.calls && w.calls[me] == GrantReady(id, op) && LockedBy(w.locks, id, me)
    ensures var w' := Do(w, GrantLoad(me));
            && w'.db == w.db
            && if id in w.db.grants && w.db.grants[id].row.state == Active
               then me in w'.calls && w'.calls[me] == GrantLoaded(id, op, w.db.grants[id]) && LockedBy(w'.locks, id, me)
               else me !in w'.calls
  {
  }

  lemma GrantCommitDoes(w: World, me: CallId, now: int)
    requires Inv(w) && me in w.calls && w.calls[me].GrantLoaded? && w.calls[me].gid in w.db.grants
    requires w.db.grants[w.calls[me].gid] == w.calls[me].gseen
    ensures var c := w.calls[me]; var w' := Do(w, GrantCommit(me, now));
            && me !in w'.calls && c.gid in w'.db.grants && w'.db.grants[c.gid].row == GrantTransform(c.gseen.row, c.gop, now)
            && c.gseen.row.state == Active && LockedBy(w.locks, c.gid, me)
  {
    hide Inv, GrantTransform, GrantOk, GrantOpOk;
    GrantCallKnows(w, me);
  }

  lemma BeginMintDoes(w: World, me: CallId, m: MintRequest)
    requires me !in w.calls
    ensures var w' := Do(w, BeginMint(me, m)); if Unratified(w, m) then me !in w'.calls else me in w'.calls && w'.calls[me].MintRatified? && w'.calls[me].mint == m
  {
    hide Ratifies, Consistent, Unratified;
    UnratifiedMeans(w, m);
  }

  lemma ReadPriorDoes(w: World, me: CallId, m: MintRequest)
    requires me in w.calls && w.calls[me].MintRatified? && w.calls[me].mint == m
    ensures var w' := Do(w, ReadPrior(me));
            && w'.db == w.db
            && if me in w'.calls then w'.calls[me].MintChecked? && w'.calls[me].mint == m else Cites(m.supersedes) && m.supersedes.value !in w.db.grants
  {
  }

  lemma ConsumeDoesOnce(w: World, me: CallId, m: MintRequest, gid: string)
    requires me in w.calls && w.calls[me].MintChecked? && w.calls[me].mint == m && "grant-" <= gid
    ensures var w' := Do(w, ConsumeRatification(me, gid));
            if me in w'.calls then m.ratificationRef !in w.db.ratifications && w'.calls[me].MintConsumed? && w'.calls[me].mint == m && w'.calls[me].gid == gid
            else m.ratificationRef in w'.db.ratifications
  {
  }

  lemma WriteGrantDoes(w: World, me: CallId, m: MintRequest, gid: string, now: int)
    requires Inv(w) && me in w.calls && w.calls[me].MintConsumed? && w.calls[me].mint == m && w.calls[me].gid == gid
    ensures var w' := Do(w, WriteGrant(me, now));
            if gid in w.db.grants then me !in w'.calls && gid in w'.db.grants
            else && GrantStands(w'.db, m, gid)
                 && (if Cites(m.supersedes) then me in w'.calls && w'.calls[me] == GrantQueued(m.supersedes.value, MarkSuperseded(gid)) else me !in w'.calls)
  {
    hide Inv, MintOk, Done;
    MintCallKnows(w, me);
    DoneEnds(me);
  }

  lemma DoneEnds(me: CallId)
    ensures forall u: World {:trigger Done(u, me)} :: me !in Done(u, me).calls && Done(u, me).db == u.db
  {
  }
}
