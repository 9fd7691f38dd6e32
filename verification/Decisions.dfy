/** The Decision entity: its phases, the one transition table every verb is guarded by, and the
    transform each verb applies to the row it read. */
module Decisions {
  import opened Substrate

  datatype Phase = Raised | Curated | Routed | Resolved | Executed | Merged | Disposed | Withdrawn

  datatype Actor = Actor(agentId: string, role: string, sessionId: Option<string>)

  datatype ParentRef = ParentRef(kind: string, id: string)

  datatype ContextRef = ContextRef(kind: string, ref: string, storage: string, mode: string, required: bool)

  datatype Choice = Choice(id: string, title: string, description: string, preview: Option<string>, consequences: Option<string>)

  datatype Answer = ChosenOption(optionId: string) | CustomAnswer(text: string)

  datatype Route = ToDirector | SelfDisposal(t5RuleRef: Option<string>, classGrantRef: Option<string>)

  /** The parameters of the charter actions. */
  datatype Params = Params(status: Option<string>, predecessor: Option<string>, supersedes: Option<string>, text: Option<string>)

  datatype PlanAction = PlanAction(action: string, targetRef: string, params: Option<Params>)

  datatype AuthorityMode = DirectorDirect | DirectorViaProxy | ArchitectT5 | ClassGrant | VerifierMandate

  /** A proof object's id, or the `id@vN` form under which a grant is cited. */
  datatype AuthorityRef = ProofRef(id: string) | GrantAtVersion(grantId: string, version: nat)

  datatype Resolution = Resolution(mode: AuthorityMode, ref: AuthorityRef, executor: Actor, answer: Answer,
                                   rationale: Option<string>, resolvedAt: int)

  datatype ExecutorBinding = ExecutorBinding(executor: Actor, boundAt: int, ok: bool)

  /** Wall-clock time spent in each non-terminal phase, in milliseconds. */
  datatype Dwell = Dwell(raised: int, curated: int, routed: int, resolved: int)

  datatype Decision = Decision(
    id: string, parentRef: Option<ParentRef>, cls: Option<string>,
    title: string, context: string, contextRefs: seq<ContextRef>, options: seq<Choice>,
    raisedBy: Actor, curatedBy: Option<Actor>, curationRecordRef: Option<string>,
    routedTo: Option<Route>, routedBy: Option<Actor>, resolution: Option<Resolution>,
    plan: seq<PlanAction>, mergedInto: Option<string>, disposedReason: Option<string>,
    binding: Option<ExecutorBinding>, status: Phase, enteredAt: int, dwell: Dwell,
    createdAt: int, updatedAt: int)

  datatype RaiseInput = RaiseInput(parentRef: Option<ParentRef>, cls: Option<string>, title: string, context: string,
                                   contextRefs: seq<ContextRef>, options: seq<Choice>, raisedBy: Actor)

  datatype Verb =
    | Curate(curator: Actor, recordRef: Option<string>, cls: Option<string>, basis: string)
    | RouteTo(router: Actor, route: Route, plan: seq<PlanAction>)
    | Resolve(executor: Actor, answer: Answer, mode: AuthorityMode, ref: AuthorityRef, rationale: Option<string>)
    | MarkExecuted(executor: Actor)
    | BindExecutor(binding: ExecutorBinding)
    | Merge(curator: Actor, into: string, basis: string)
    | Dispose(curator: Actor, reason: string)
    | Withdraw(caller: Actor)

  /* ------------------------------------------------------------------ the phase table */

  function Exits(p: Phase): set<Phase> {
    match p
    case Raised => {Curated, Merged, Disposed, Withdrawn}
    case Curated => {Routed, Merged, Disposed, Withdrawn}
    case Routed => {Resolved, Disposed}
    case Resolved => {Executed}
    case _ => {}
  }

  predicate Terminal(p: Phase) {
    p in {Executed, Merged, Disposed, Withdrawn}
  }

  /** The phase a verb moves to; the executor binding stays in place. */
  function Target(v: Verb): Option<Phase> {
    match v
    case Curate(_, _, _, _) => Some(Curated)
    case RouteTo(_, _, _) => Some(Routed)
    case Resolve(_, _, _, _, _) => Some(Resolved)
    case MarkExecuted(_) => Some(Executed)
    case BindExecutor(_) => None
    case Merge(_, _, _) => Some(Merged)
    case Dispose(_, _) => Some(Disposed)
    case Withdraw(_) => Some(Withdrawn)
  }

  predicate Cites(ref: Option<string>) {
    ref.Some? && ref.value != ""
  }

  /** The checks a verb makes on the row inside its transform; a failing one rejects the call. */
  predicate Allowed(d: Decision, v: Verb) {
    match v
    case BindExecutor(_) => d.status == Resolved
    case Withdraw(caller) => d.raisedBy.agentId == caller.agentId && Withdrawn in Exits(d.status)
    case RouteTo(_, SelfDisposal(t5, grant), _) =>
      Routed in Exits(d.status) && (Cites(grant) || Cites(t5)) && d.cls.Some?
    case _ => Target(v).Some? && Target(v).value in Exits(d.status)
  }

  /* ------------------------------------------------------------------ the transforms */

  const NO_DWELL := Dwell(0, 0, 0, 0)

  function Fresh(id: string, input: RaiseInput, now: int): Decision {
    Decision(id, input.parentRef, input.cls, input.title, input.context, input.contextRefs, input.options,
             input.raisedBy, None, None, None, None, None, [], None, None, None, Raised, now, NO_DWELL, now, now)
  }

  function Max(a: int, b: int): int {
    if a < b then b else a
  }

  function Accrue(w: Dwell, p: Phase, elapsed: int): Dwell {
    match p
    case Raised => w.(raised := w.raised + elapsed)
    case Curated => w.(curated := w.curated + elapsed)
    case Routed => w.(routed := w.routed + elapsed)
    case Resolved => w.(resolved := w.resolved + elapsed)
    case _ => w
  }

  function Total(w: Dwell): int {
    w.raised + w.curated + w.routed + w.resolved
  }

  /** Leaves the current phase for `to` at `now`, charging the time spent to the phase left. */
  function MoveTo(d: Decision, to: Phase, now: int): Decision {
    d.(status := to, dwell := Accrue(d.dwell, d.status, Max(0, now - d.enteredAt)), enteredAt := now, updatedAt := now)
  }

  function Transform(d: Decision, v: Verb, now: int): Decision
    requires Allowed(d, v)
  {
    match v
    case Curate(curator, recordRef, cls, _) =>
      MoveTo(d, Curated, now).(curatedBy := Some(curator), curationRecordRef := OrElse(recordRef, d.curationRecordRef),
                               cls := OrElse(cls, d.cls))
    case RouteTo(router, route, plan) =>
      MoveTo(d, Routed, now).(routedTo := Some(route), routedBy := Some(router), plan := plan)
    case Resolve(executor, answer, mode, ref, rationale) =>
      MoveTo(d, Resolved, now).(resolution := Some(Resolution(mode, ref, executor, answer, rationale, now)))
    case MarkExecuted(_) => MoveTo(d, Executed, now)
    case BindExecutor(binding) => d.(binding := Some(binding), updatedAt := now)
    case Merge(curator, into, _) =>
      MoveTo(d, Merged, now).(mergedInto := Some(into), curatedBy := OrElse(d.curatedBy, Some(curator)))
    case Dispose(curator, reason) =>
      MoveTo(d, Disposed, now).(disposedReason := Some(reason), curatedBy := OrElse(d.curatedBy, Some(curator)))
    case Withdraw(_) => MoveTo(d, Withdrawn, now)
  }

  /* ------------------------------------------------------------------ what every history keeps */

  /** `q` can follow `p` in some run. */
  predicate Reaches(p: Phase, q: Phase) {
    p == q ||
    match p
    case Raised => true
    case Curated => q != Raised
    case Routed => q in {Resolved, Executed, Disposed}
    case Resolved => q == Executed
    case _ => false
  }

  /** What the raiser submitted, never rewritten by any verb. */
  predicate SameQuestion(a: Decision, b: Decision) {
    a.id == b.id && a.parentRef == b.parentRef && a.title == b.title && a.context == b.context &&
    a.contextRefs == b.contextRefs && a.options == b.options && a.raisedBy == b.raisedBy && a.createdAt == b.createdAt
  }

  /** Everything a proof gate looks at. */
  predicate SameCase(a: Decision, b: Decision) {
    SameQuestion(a, b) && a.cls == b.cls && a.routedTo == b.routedTo && a.plan == b.plan
  }

  /** How a decision may differ between an earlier and a later moment of one run. */
  predicate Grows(a: Decision, b: Decision) {
    && SameQuestion(a, b)
    && Reaches(a.status, b.status)
    && (a.status == b.status || a.status != Raised ==> a.cls == b.cls)
    && (a.status == b.status || a.status in {Routed, Resolved} ==> SameCase(a, b) && a.routedBy == b.routedBy)
    && (a.status == b.status ==> b == a.(binding := b.binding, updatedAt := b.updatedAt))
    && (a.resolution.Some? ==> b.resolution == a.resolution)
    && (Terminal(a.status) ==> b == a)
  }

  lemma GrowsTransitive()
    ensures Transitive(Grows) && Reflexive(Grows)
  {
  }

  /** The shape of a row in each phase, and the dwell bound. */
  predicate WellFormed(d: Decision) {
    && (d.resolution.Some? <==> d.status in {Resolved, Executed})
    && (d.mergedInto.Some? <==> d.status == Merged)
    && (d.disposedReason.Some? <==> d.status == Disposed)
    && (d.status in {Routed, Resolved, Executed} ==> d.routedTo.Some? && d.routedBy.Some?)
    && (d.status in {Raised, Curated, Merged, Withdrawn} ==> d.routedTo == None && d.routedBy == None && d.plan == [])
    && (d.status in {Curated, Routed, Resolved, Executed, Merged, Disposed} ==> d.curatedBy.Some?)
    && (d.status == Raised ==> d.curatedBy == None)
    && (d.binding.Some? ==> d.status in {Resolved, Executed})
    && (d.routedTo.Some? && d.routedTo.value.SelfDisposal? ==>
          d.cls.Some? && (Cites(d.routedTo.value.classGrantRef) || Cites(d.routedTo.value.t5RuleRef)))
    && Total(d.dwell) >= d.enteredAt - d.createdAt
  }

  /** Every verb moves a well-formed row to a well-formed row along `Grows`. */
  lemma TransformGrows(d: Decision, v: Verb, now: int)
    requires WellFormed(d) && Allowed(d, v)
    ensures Grows(d, Transform(d, v, now)) && WellFormed(Transform(d, v, now))
    ensures Target(v).Some? ==> Transform(d, v, now).status == Target(v).value && Target(v).value in Exits(d.status)
    ensures Target(v) == None ==> Transform(d, v, now).status == d.status
  {
  }

  /** While the clock does not run backwards, the phase buckets add up to exactly the decision's age. */
  lemma DwellIsConserved(d: Decision, v: Verb, now: int)
    requires Allowed(d, v) && d.enteredAt <= now && Total(d.dwell) == d.enteredAt - d.createdAt
    ensures var e := Transform(d, v, now); Total(e.dwell) == e.enteredAt - e.createdAt && e.enteredAt <= now
  {
  }

  /* ------------------------------------------------------------------ walks of the table */

  /** A sequence of phases in which each is an exit of the one before. */
  ghost predicate Walk(ps: seq<Phase>) {
    forall i | 0 < i < |ps| :: ps[i] in Exits(ps[i - 1])
  }

  function Rank(p: Phase): nat {
    match p
    case Raised => 0
    case Curated => 1
    case Routed => 2
    case Resolved => 3
    case _ => 4
  }

  /** No walk makes more than four moves, and none moves on from a terminal phase.  A walk that can
      go no further has reached one. */
  lemma {:induction false} WalksEnd(ps: seq<Phase>)
    requires |ps| > 0 && Walk(ps)
    ensures |ps| - 1 <= Rank(ps[|ps| - 1]) <= 4
    ensures forall i | 0 <= i < |ps| :: Terminal(ps[i]) ==> i == |ps| - 1
    ensures Exits(ps[|ps| - 1]) == {} <==> Terminal(ps[|ps| - 1])
  {
    if |ps| > 1 {
      var front := ps[..|ps| - 1];
      WalksEnd(front);
      assert ps[|ps| - 1] in Exits(ps[|ps| - 2]);
    }
  }
}
