/** Director signals and confirmations, and the checks made on them.

    Hashes are taken with an arbitrary function of what is hashed, so nothing here relies on the
    hash being collision-free. */
module DirectorProof {
  import opened Substrate
  import opened Decisions

  const REVERSIBLE_ACTIONS: set<string> := {"unblock", "approve"}

  /** The canonical forms that get hashed.  A grant spec's arrays arrive sorted. */
  datatype Preimage =
    | Prompt(id: string, title: string, context: string, options: seq<Choice>)
    | Proposed(answer: Answer)
    | Plan(plan: seq<PlanAction>)
    | GrantSpec(cls: string, allowedActions: seq<string>, reversibleOnly: bool, parentKinds: Option<seq<string>>,
                excludedRefs: seq<string>, excludedClasses: seq<string>, representationDays: int)

  type Hash = Preimage -> string

  function PromptHash(h: Hash, d: Decision): string {
    h(Prompt(d.id, d.title, d.context, d.options))
  }

  function PlanHash(h: Hash, plan: seq<PlanAction>): Option<string> {
    if plan == [] then None else Some(h(Plan(plan)))
  }

  /** A captured Director utterance; never rewritten. */
  datatype Signal = Signal(confirmationId: Option<string>, channel: string, answer: string, capturedBy: Actor, capturedAt: int)

  datatype Confirmation = Confirmation(
    decisionId: string, promptHash: string, answerHash: string, proposed: Answer, planHash: Option<string>,
    mintedBy: Option<Actor>, nonce: string, createdAt: int, expiresAt: int,
    answeredBy: Option<string>, consumedAt: Option<int>, consumedBy: Option<string>, updatedAt: int)

  /** What a consumer or the gate holds a confirmation against. */
  datatype Expectation = Expectation(decisionId: string, promptHash: string, answerHash: string, planHash: Option<string>)

  predicate BoundTo(c: Confirmation, e: Expectation) {
    c.decisionId == e.decisionId && c.promptHash == e.promptHash && c.answerHash == e.answerHash && c.planHash == e.planHash
  }

  predicate Consumable(c: Confirmation, e: Expectation, now: int) {
    c.consumedAt == None && now <= c.expiresAt && BoundTo(c, e)
  }

  function Expected(h: Hash, d: Decision, answer: Answer): Expectation {
    Expectation(d.id, PromptHash(h, d), h(Proposed(answer)), PlanHash(h, d.plan))
  }

  datatype ConfOp = BindAnswer(signalId: string) | Consume(expected: Expectation, consumer: string)

  predicate ConfAllowed(c: Confirmation, op: ConfOp, now: int) {
    match op
    case BindAnswer(_) => c.answeredBy == None && c.consumedAt == None
    case Consume(e, _) => Consumable(c, e, now)
  }

  function ConfTransform(c: Confirmation, op: ConfOp, now: int): Confirmation {
    match op
    case BindAnswer(s) => c.(answeredBy := Some(s), updatedAt := now)
    case Consume(_, consumer) => c.(consumedAt := Some(now), consumedBy := Some(consumer), updatedAt := now)
  }

  /** The bound content never changes; the answer and the consumption are each set at most once. */
  predicate ConfGrows(a: Confirmation, b: Confirmation) {
    && b == a.(answeredBy := b.answeredBy, consumedAt := b.consumedAt, consumedBy := b.consumedBy, updatedAt := b.updatedAt)
    && (a.answeredBy.Some? ==> b.answeredBy == a.answeredBy)
    && (a.consumedAt.Some? ==> b == a)
  }

  lemma ConfGrowsTransitive()
    ensures Transitive(ConfGrows) && Reflexive(ConfGrows)
  {
  }

  lemma ConfTransformGrows(c: Confirmation, op: ConfOp, now: int)
    requires ConfAllowed(c, op, now)
    ensures ConfGrows(c, ConfTransform(c, op, now))
  {
  }

  /** Anything outside the reversible registry, known or not, calls for a confirmation. */
  predicate PlanRequiresConfirmation(plan: seq<PlanAction>) {
    exists i | 0 <= i < |plan| :: plan[i].action !in REVERSIBLE_ACTIONS
  }
}
