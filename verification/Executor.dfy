/** The plan a resolution carries: what is checked before anything happens, what then happens, and when what was
    checked is enough. */
module Executor {
  import opened Substrate
  import opened Decisions
  import Rail
  import Charter
  import VerbRules

  datatype WorkPhase = Blocked | InProgress | Elsewhere

  /** `sealed` marks an item that failed its verification for good. */
  datatype WorkItem = WorkItem(phase: WorkPhase, blockers: seq<string>, sealed: bool)

  datatype ProposalStatus = Submitted | Approved | Reviewed

  /** `scaffolds` says whether the entities an approval creates can all be created. */
  datatype Proposal = Proposal(status: ProposalStatus, scaffolds: bool)

  /** What a plan may act on: work items, proposals, the axioms served, and the charter. */
  datatype Targets = Targets(items: map<string, WorkItem>, proposals: map<string, Proposal>, axioms: Option<seq<string>>,
                             rows: seq<Charter.Version>, counter: nat)

  datatype Fault =
    | NotInRegistry | Unresolved | NotBlockedOnIt | NotSubmitted | NoEvidence | NotSynced | UnknownAxiom
    | BadStatus | SelfReference | BadSection | NoText

  const UNBLOCK := "unblock"
  const APPROVE := "approve"
  const BIND := "bind_axiom"
  const AMEND := "amend_charter"
  const REGISTRY: set<string> := {UNBLOCK, APPROVE, BIND, AMEND}
  const STATUSES: set<string> := {"bound", "superseded", "unbound"}
  const SECTIONS: set<string> := {"vision", "directorProfile"}

  function StatusParam(s: PlanAction): Option<string> {
    if s.params.Some? then s.params.value.status else None
  }

  function SupersedesParam(s: PlanAction): Option<string> {
    if s.params.Some? then s.params.value.supersedes else None
  }

  function PredecessorParam(s: PlanAction): Option<string> {
    if s.params.Some? then s.params.value.predecessor else None
  }

  function TextParam(s: PlanAction): string {
    if s.params.Some? && s.params.value.text.Some? then s.params.value.text.value else ""
  }

  predicate Evidenced(d: Decision) {
    exists r | r in d.contextRefs :: r.required
  }

  /* ------------------------------------------------------------------ before any effect */

  /** The checks on one step, in their order. */
  function Check(t: Targets, d: Decision, s: PlanAction): Option<Fault> {
    if s.action == UNBLOCK then
      if s.targetRef !in t.items then Some(Unresolved)
      else if t.items[s.targetRef].phase != Blocked || d.id !in t.items[s.targetRef].blockers then Some(NotBlockedOnIt)
      else None
    else if s.action == APPROVE then
      if s.targetRef !in t.proposals then Some(Unresolved)
      else if t.proposals[s.targetRef].status != Submitted then Some(NotSubmitted)
      else None
    else if s.action == BIND then
      if !Evidenced(d) then Some(NoEvidence)
      else if t.axioms.None? then Some(NotSynced)
      else if s.targetRef !in t.axioms.value then Some(UnknownAxiom)
      else if StatusParam(s).Some? && StatusParam(s).value !in STATUSES then Some(BadStatus)
      else if PredecessorParam(s) == Some(s.targetRef) || SupersedesParam(s) == Some(s.targetRef) then Some(SelfReference)
      else None
    else if s.action == AMEND then
      if !Evidenced(d) then Some(NoEvidence)
      else if s.targetRef !in SECTIONS then Some(BadSection)
      else if Rail.Blank(TextParam(s)) then Some(NoText)
      else None
    else Some(NotInRegistry)
  }

  /** What a step must be if it is to pass: an action of the registry, and its target in the state the action needs. */
  predicate Fits(t: Targets, d: Decision, s: PlanAction) {
    || (s.action == "unblock" && s.targetRef in t.items && t.items[s.targetRef].phase == Blocked && d.id in t.items[s.targetRef].blockers)
    || (s.action == "approve" && s.targetRef in t.proposals && t.proposals[s.targetRef].status == Submitted)
    || (s.action == "bind_axiom" && (exists r | r in d.contextRefs :: r.required) && t.axioms.Some? && s.targetRef in t.axioms.value
        && (s.params.Some? ==>
              && s.params.value.status in {None, Some("bound"), Some("superseded"), Some("unbound")}
              && s.params.value.predecessor != Some(s.targetRef) && s.params.value.supersedes != Some(s.targetRef)))
    || (s.action == "amend_charter" && (exists r | r in d.contextRefs :: r.required) && s.targetRef in {"vision", "directorProfile"}
        && s.params.Some? && s.params.value.text.Some? && var text := s.params.value.text.value;
        exists i | 0 <= i < |text| :: text[i] !in VerbRules.TRIMMED)
  }

  /** What each fault says of the step it is found in, given the checks that come before it. */
  predicate Blames(t: Targets, d: Decision, s: PlanAction, f: Fault) {
    match f
    case NotInRegistry => s.action !in {"unblock", "approve", "bind_axiom", "amend_charter"}
    case Unresolved => (s.action == "unblock" && s.targetRef !in t.items) || (s.action == "approve" && s.targetRef !in t.proposals)
    case NotBlockedOnIt =>
      s.action == "unblock" && s.targetRef in t.items && (t.items[s.targetRef].phase != Blocked || d.id !in t.items[s.targetRef].blockers)
    case NotSubmitted => s.action == "approve" && s.targetRef in t.proposals && t.proposals[s.targetRef].status != Submitted
    case NoEvidence => s.action in {"bind_axiom", "amend_charter"} && forall r | r in d.contextRefs :: !r.required
    case NotSynced => s.action == "bind_axiom" && (exists r | r in d.contextRefs :: r.required) && t.axioms == None
    case UnknownAxiom => s.action == "bind_axiom" && (exists r | r in d.contextRefs :: r.required) && t.axioms.Some? && s.targetRef !in t.axioms.value
    case BadStatus =>
      && s.action == "bind_axiom" && (exists r | r in d.contextRefs :: r.required) && t.axioms.Some? && s.targetRef in t.axioms.value
      && s.params.Some? && s.params.value.status !in {None, Some("bound"), Some("superseded"), Some("unbound")}
    case SelfReference =>
      && s.action == "bind_axiom" && (exists r | r in d.contextRefs :: r.required) && t.axioms.Some? && s.targetRef in t.axioms.value
      && s.params.Some? && s.params.value.status in {None, Some("bound"), Some("superseded"), Some("unbound")}
      && Some(s.targetRef) in {s.params.value.predecessor, s.params.value.supersedes}
    case BadSection =>
      s.action == "amend_charter" && (exists r | r in d.contextRefs :: r.required) && s.targetRef !in {"vision", "directorProfile"}
    case NoText =>
      && s.action == "amend_charter" && (exists r | r in d.contextRefs :: r.required) && s.targetRef in {"vision", "directorProfile"}
      && (s.params.Some? && s.params.value.text.Some? ==>
            var text := s.params.value.text.value; forall i | 0 <= i < |text| :: text[i] in VerbRules.TRIMMED)
  }

  lemma CheckMeans(t: Targets, d: Decision, s: PlanAction)
    ensures Check(t, d, s) == None <==> Fits(t, d, s)
    ensures Check(t, d, s).Some? ==> Blames(t, d, s, Check(t, d, s).value)
  {
    hide Rail.Blank, Fits, Blames;
    if s.action == UNBLOCK || s.action == APPROVE { TargetCheckMeans(t, d, s); }
    else if s.action == BIND { BindCheckMeans(t, d, s); }
    else if s.action == AMEND { AmendCheckMeans(t, d, s); }
    else { UnknownCheckMeans(t, d, s); }
  }

  lemma UnknownCheckMeans(t: Targets, d: Decision, s: PlanAction)
    requires s.action !in REGISTRY
    ensures !Fits(t, d, s) && Blames(t, d, s, NotInRegistry)
  {
  }

  lemma TargetCheckMeans(t: Targets, d: Decision, s: PlanAction)
    requires s.action in {UNBLOCK, APPROVE}
    ensures (Check(t, d, s) == None <==> Fits(t, d, s)) && (Check(t, d, s).Some? ==> Blames(t, d, s, Check(t, d, s).value))
  {
  }

  lemma StatusMeans(status: Option<string>)
    ensures status in {None, Some("bound"), Some("superseded"), Some("unbound")} <==> status == None || status.value in STATUSES
  {
  }

  lemma BindCheckMeans(t: Targets, d: Decision, s: PlanAction)
    requires s.action == BIND
    ensures (Check(t, d, s) == None <==> Fits(t, d, s)) && (Check(t, d, s).Some? ==> Blames(t, d, s, Check(t, d, s).value))
  {
    StatusMeans(StatusParam(s));
    assert Evidenced(d) <==> exists r | r in d.contextRefs :: r.required;
  }

  lemma AmendCheckMeans(t: Targets, d: Decision, s: PlanAction)
    requires s.action == AMEND
    ensures (Check(t, d, s) == None <==> Fits(t, d, s)) && (Check(t, d, s).Some? ==> Blames(t, d, s, Check(t, d, s).value))
  {
    hide Rail.Blank;
    VerbRules.BlankMeans(TextParam(s));
  }

  /** A plan passes if each of its steps does: each is looked at as things stand before any of them is taken. */
  ghost predicate Passes(t: Targets, d: Decision) {
    forall i | 0 <= i < |d.plan| :: Fits(t, d, d.plan[i])
  }

  /* ------------------------------------------------------------------ the effects */

  function BindingInput(id: string, proof: string, s: PlanAction): Charter.BindInput {
    var status := match StatusParam(s)
                  case None => None
                  case Some(x) => Some(if x == "bound" then Charter.Bound else if x == "superseded" then Charter.Superseded else Charter.Unbound);
    Charter.BindInput(s.targetRef, PredecessorParam(s), status, SupersedesParam(s), id, proof)
  }

  /** What one step does, and whether it reports success.  A failing effect is caught and changes nothing; only a
      refused binding has used up a version number.  An unknown action does nothing and reports nothing. */
  function Fire(t: Targets, id: string, proof: string, s: PlanAction, now: int): (Targets, bool) {
    if s.action == UNBLOCK then
      if s.targetRef in t.items && var w := t.items[s.targetRef]; !w.sealed && w.phase == Blocked && id in w.blockers
      then (t.(items := t.items[s.targetRef := WorkItem(InProgress, [], false)]), true)
      else (t, false)
    else if s.action == APPROVE then
      if s.targetRef in t.proposals && t.proposals[s.targetRef] == Proposal(Submitted, true)
      then (t.(proposals := t.proposals[s.targetRef := Proposal(Approved, true)]), true)
      else (t, false)
    else if s.action == BIND then FireBind(t, BindingInput(id, proof, s), now)
    else if s.action == AMEND then
      if |t.rows| >= Charter.SCAN_CAP then (t, false)
      else
        var c, text := Charter.Next(t.rows, t.counter + 1, now), Some(Charter.Section(TextParam(s), id + ":" + proof, now));
        (t.(counter := t.counter + 1, rows := t.rows + [if s.targetRef == "vision" then c.(vision := text) else c.(profile := text)]), true)
    else (t, true)
  }

  function FireBind(t: Targets, input: Charter.BindInput, now: int): (Targets, bool) {
    if input.predecessor == Some(input.axiom) || input.supersedes == Some(input.axiom) || |t.rows| >= Charter.SCAN_CAP then (t, false)
    else
      var c := Charter.Next(t.rows, t.counter + 1, now);
      if !Charter.Admissible(c.bindings, input) then (t.(counter := t.counter + 1), false)
      else (t.(counter := t.counter + 1, rows := t.rows + [c.(bindings := Charter.AfterBind(c.bindings, input, now))]), true)
  }

  /** What other callers make of the targets before each step. */
  type Others = nat -> Targets -> Targets

  const NOBODY: Others := n => u => u

  /** The targets once the first `n` steps have been taken, among others. */
  function Taken(t: Targets, d: Decision, proof: string, clock: nat -> int, others: Others, n: nat): Targets
    requires n <= |d.plan|
  {
    if n == 0 then t else Fire(others(n - 1)(Taken(t, d, proof, clock, others, n - 1)), d.id, proof, d.plan[n - 1], clock(n - 1)).0
  }

  /** Step `n` finds its targets as others have left them. */
  function Met(t: Targets, d: Decision, proof: string, clock: nat -> int, others: Others, n: nat): Targets
    requires n <= |d.plan|
  {
    others(n)(Taken(t, d, proof, clock, others, n))
  }

  predicate Succeeds(t: Targets, d: Decision, proof: string, clock: nat -> int, others: Others, n: nat)
    requires n < |d.plan|
  {
    Fire(Met(t, d, proof, clock, others, n), d.id, proof, d.plan[n], clock(n)).1
  }

  /** The results pushed by the first `n` steps. */
  function Results(t: Targets, d: Decision, proof: string, clock: nat -> int, others: Others, n: nat): seq<bool>
    requires n <= |d.plan|
  {
    if n == 0 then []
    else
      Results(t, d, proof, clock, others, n - 1)
      + if d.plan[n - 1].action in REGISTRY then [Succeeds(t, d, proof, clock, others, n - 1)] else []
  }

  /** The stores as one executor meets them. */
  class Execution {
    const others: Others
    var targets: Targets

    constructor (targets: Targets, others: Others)
      ensures this.targets == targets && this.others == others
    {
      this.targets, this.others := targets, others;
    }

    /** `validatePlan`: throws for the first step that fails its checks, before any effect. */
    method ValidatePlan(d: Decision) returns (fault: Option<(nat, Fault)>)
      ensures fault.None? <==> forall i | 0 <= i < |d.plan| :: Fits(targets, d, d.plan[i])
      ensures fault.Some? ==>
                && fault.value.0 < |d.plan| && Blames(targets, d, d.plan[fault.value.0], fault.value.1)
                && !Fits(targets, d, d.plan[fault.value.0]) && forall i | 0 <= i < fault.value.0 :: Fits(targets, d, d.plan[i])
    {
      hide Check, Fits, Blames;
      for i := 0 to |d.plan|
        invariant forall j | 0 <= j < i :: Fits(targets, d, d.plan[j])
      {
        var f := Check(targets, d, d.plan[i]);
        CheckMeans(targets, d, d.plan[i]);
        if f.Some? { return Some((i, f.value)); }
      }
      fault := None;
    }

    /** `executePlan`: every step is taken in turn, whether or not those before it succeeded, and its result is pushed, if it
        is an action the registry knows. */
    method ExecutePlan(d: Decision, proof: string, clock: nat -> int) returns (ok: bool, results: seq<bool>)
      modifies `targets
      ensures targets == Taken(old(targets), d, proof, clock, others, |d.plan|)
      ensures results == Results(old(targets), d, proof, clock, others, |d.plan|)
      ensures ok <==> forall i | 0 <= i < |d.plan| :: Succeeds(old(targets), d, proof, clock, others, i)
    {
      hide Fire;
      results := [];
      for i := 0 to |d.plan|
        invariant targets == Taken(old(targets), d, proof, clock, others, i)
        invariant results == Results(old(targets), d, proof, clock, others, i)
      {
        targets := others(i)(targets);
        var (next, done) := Fire(targets, d.id, proof, d.plan[i], clock(i));
        if d.plan[i].action in REGISTRY { results := results + [done]; }
        targets := next;
      }
      AllResults(old(targets), d, proof, clock, others, |d.plan|);
      ok := forall r | r in results :: r;
    }

    /** What follows a committed resolution: the plan is carried out and its outcome bound to the decision, which ends
        executed exactly if every step succeeded, and otherwise stays resolved for all to see. */
    method CarryOut(d: Decision, executor: Actor, proof: string, clock: nat -> int, now: int) returns (final: Decision)
      requires d.status == Phase.Resolved
      modifies `targets
      ensures targets == Taken(old(targets), d, proof, clock, others, |d.plan|)
      ensures final.status == Executed <==> forall i | 0 <= i < |d.plan| :: Succeeds(old(targets), d, proof, clock, others, i)
      ensures final.status == Executed || (final.status == Phase.Resolved && final.binding == Some(ExecutorBinding(executor, now, false)))
      ensures final.resolution == d.resolution && SameCase(d, final)
    {
      hide Fire, Succeeds;
      if d.plan == [] { return Transform(d, MarkExecuted(executor), now); }
      var ok, results := ExecutePlan(d, proof, clock);
      var bound := Transform(d, BindExecutor(ExecutorBinding(executor, now, ok)), now);
      final := if ok then Transform(bound, MarkExecuted(executor), now) else bound;
    }
  }

  /** Every result is a success exactly if every step succeeded. */
  lemma {:induction false} AllResults(t: Targets, d: Decision, proof: string, clock: nat -> int, others: Others, n: nat)
    requires n <= |d.plan|
    ensures (forall r | r in Results(t, d, proof, clock, others, n) :: r) <==> forall j | 0 <= j < n :: Succeeds(t, d, proof, clock, others, j)
  {
    hide Fire, Taken, Succeeds;
    if n > 0 {
      AllResults(t, d, proof, clock, others, n - 1);
      var before, last := Results(t, d, proof, clock, others, n - 1), Succeeds(t, d, proof, clock, others, n - 1);
      AllPushed(before, last);
      SucceedsMeans(t, d, proof, clock, others, n - 1);
      if d.plan[n - 1].action !in REGISTRY {
        UnknownIsIdle(Met(t, d, proof, clock, others, n - 1), d.id, proof, d.plan[n - 1], clock(n - 1));
        assert Results(t, d, proof, clock, others, n) == before + [] == before;
      } else {
        assert Results(t, d, proof, clock, others, n) == before + [last];
      }
    }
  }

  lemma AllPushed(results: seq<bool>, last: bool)
    ensures (forall r | r in results + [last] :: r) <==> (forall r | r in results :: r) && last
  {
    assert forall r :: r in results + [last] <==> r in results || r == last;
    assert (forall r | r in results :: r) <==> false !in results;
    assert (forall r | r in results + [last] :: r) <==> false !in results + [last];
  }

  lemma SucceedsMeans(t: Targets, d: Decision, proof: string, clock: nat -> int, others: Others, n: nat)
    requires n < |d.plan|
    ensures Succeeds(t, d, proof, clock, others, n) == Fire(Met(t, d, proof, clock, others, n), d.id, proof, d.plan[n], clock(n)).1
  {
    hide Fire, Met;
  }

  lemma UnknownIsIdle(t: Targets, id: string, proof: string, s: PlanAction, now: int)
    requires s.action !in REGISTRY
    ensures Fire(t, id, proof, s, now) == (t, true)
  {
  }

  /* ------------------------------------------------------------------ when passing is enough */

  /** Step `i` is the first in the plan to do this to that target. */
  predicate FirstOfItsKind(plan: seq<PlanAction>, i: nat)
    requires i < |plan|
  {
    forall j | 0 <= j < i :: !(plan[j].action == plan[i].action && plan[j].targetRef == plan[i].targetRef)
  }

  function CharterSteps(plan: seq<PlanAction>): nat {
    if plan == [] then 0 else CharterSteps(plan[..|plan| - 1]) + if plan[|plan| - 1].action in {BIND, AMEND} then 1 else 0
  }

  predicate Bound(bindings: seq<Charter.Binding>, axiom: string) {
    Charter.LiveIndex(bindings, axiom) < |bindings|
  }

  function BindingsNow(rows: seq<Charter.Version>): seq<Charter.Binding> {
    if rows == [] then [] else rows[|rows| - 1].bindings
  }

  predicate Binds(s: PlanAction) {
    StatusParam(s).None? || StatusParam(s).value == "bound"
  }

  /** Whether the axiom is bound once these steps are taken, by the steps alone. */
  predicate BoundAfter(bound: bool, plan: seq<PlanAction>, axiom: string)
    decreases |plan|
  {
    if plan == [] then bound
    else
      var s, before := plan[|plan| - 1], BoundAfter(bound, plan[..|plan| - 1], axiom);
      if s.action != BIND || s.targetRef != axiom then before
      else Binds(s) || (before && !Charter.Given(SupersedesParam(s)))
  }

  /** What validation does not look at: one step spoiling a later one, and the limits of each effect. */
  predicate Compatible(t: Targets, plan: seq<PlanAction>, i: nat)
    requires i < |plan|
  {
    var s := plan[i];
    if s.action == UNBLOCK then FirstOfItsKind(plan, i) && s.targetRef in t.items && !t.items[s.targetRef].sealed
    else if s.action == APPROVE then FirstOfItsKind(plan, i) && s.targetRef in t.proposals && t.proposals[s.targetRef].scaffolds
    else
      && |t.rows| + CharterSteps(plan[..i]) < Charter.SCAN_CAP
      && (s.action == BIND && Binds(s) && !Charter.Given(SupersedesParam(s)) ==>
            !BoundAfter(Bound(BindingsNow(t.rows), s.targetRef), plan[..i], s.targetRef))
  }

  /** The targets the plan names after its first `n` steps, if all of them succeeded, told from the plan alone. */
  ghost predicate Told(t: Targets, u: Targets, plan: seq<PlanAction>, n: nat)
    requires n <= |plan|
  {
    && Charter.CharterOk(u.rows, u.counter)
    && (forall x | Names(plan, UNBLOCK, x) ::
          (x in u.items <==> x in t.items)
          && (x in t.items ==> u.items[x] == if Names(plan[..n], UNBLOCK, x) then WorkItem(InProgress, [], false) else t.items[x]))
    && (forall x | Names(plan, APPROVE, x) ::
          (x in u.proposals <==> x in t.proposals)
          && (x in t.proposals ==> u.proposals[x] == if Names(plan[..n], APPROVE, x) then Proposal(Approved, true) else t.proposals[x]))
    && |u.rows| == |t.rows| + CharterSteps(plan[..n])
    && (forall x :: Bound(BindingsNow(u.rows), x) <==> BoundAfter(Bound(BindingsNow(t.rows), x), plan[..n], x))
  }

  /** Others left alone what the plan names, and the charter. */
  ghost predicate Aloof(plan: seq<PlanAction>, u: Targets, v: Targets) {
    && v.rows == u.rows && v.counter == u.counter
    && (forall x | Names(plan, UNBLOCK, x) :: (x in v.items <==> x in u.items) && (x in u.items ==> v.items[x] == u.items[x]))
    && (forall x | Names(plan, APPROVE, x) :: (x in v.proposals <==> x in u.proposals) && (x in u.proposals ==> v.proposals[x] == u.proposals[x]))
  }

  lemma AloofTold(t: Targets, u: Targets, v: Targets, plan: seq<PlanAction>, n: nat)
    requires n <= |plan| && Told(t, u, plan, n) && Aloof(plan, u, v)
    ensures Told(t, v, plan, n)
  {
    hide Charter.CharterOk, Names, Bound, BoundAfter;
  }

  predicate Names(plan: seq<PlanAction>, action: string, ref: string) {
    exists i | 0 <= i < |plan| :: plan[i].action == action && plan[i].targetRef == ref
  }

  /** A binding's effect on which axioms are bound. */
  lemma BindBounds(bindings: seq<Charter.Binding>, input: Charter.BindInput, now: int, x: string)
    requires Charter.OneLive(bindings)
    ensures Bound(Charter.AfterBind(bindings, input, now), x)
            <==> if x == input.axiom then Charter.StatusOf(input) == Charter.Bound || (Bound(bindings, x) && !Charter.Given(input.supersedes))
                 else Bound(bindings, x)
  {
    var k, next := Charter.LiveIndex(bindings, input.axiom), Charter.AfterBind(bindings, input, now);
    var j := Charter.LiveIndex(bindings, x);
    if j < |bindings| && (x != input.axiom || !Charter.Given(input.supersedes)) { assert next[j] == bindings[j]; }
    assert next[|bindings|] == Charter.NewBinding(input, now);
  }

  lemma NamesNext(plan: seq<PlanAction>, n: nat, action: string, ref: string)
    requires n < |plan|
    ensures Names(plan[..n + 1], action, ref) <==> Names(plan[..n], action, ref) || (plan[n].action == action && plan[n].targetRef == ref)
    ensures plan[..n + 1][..n] == plan[..n]
  {
    if Names(plan[..n], action, ref) {
      var i :| 0 <= i < n && plan[..n][i].action == action && plan[..n][i].targetRef == ref;
      assert plan[..n + 1][i] == plan[..n][i];
    }
    assert plan[..n + 1][n] == plan[n];
  }

  lemma FirstIsUnnamed(plan: seq<PlanAction>, n: nat)
    requires n < |plan|
    ensures FirstOfItsKind(plan, n) <==> !Names(plan[..n], plan[n].action, plan[n].targetRef)
  {
    if !FirstOfItsKind(plan, n) {
      var j :| 0 <= j < n && plan[j].action == plan[n].action && plan[j].targetRef == plan[n].targetRef;
      assert plan[..n][j] == plan[j];
    }
  }

  /** With the steps before it all done, a step that passed its checks succeeds exactly if it is compatible. */
  lemma SucceedsIff(t: Targets, u: Targets, d: Decision, proof: string, n: nat, now: int)
    requires n < |d.plan| && Fits(t, d, d.plan[n]) && Told(t, u, d.plan, n)
    ensures Fire(u, d.id, proof, d.plan[n], now).1 <==> Compatible(t, d.plan, n)
  {
    NamesItself(d.plan, n);
    hide Charter.CharterOk, FirstOfItsKind, Names, CharterSteps, BoundAfter;
    FirstIsUnnamed(d.plan, n);
    if d.plan[n].action == BIND { AdmitsIff(u.rows, u.counter + 1, now, BindingInput(d.id, proof, d.plan[n])); }
  }

  lemma NamesItself(plan: seq<PlanAction>, n: nat)
    requires n < |plan|
    ensures Names(plan, plan[n].action, plan[n].targetRef)
  {
  }

  lemma AdmitsIff(rows: seq<Charter.Version>, version: nat, now: int, input: Charter.BindInput)
    ensures Charter.Next(rows, version, now).bindings == BindingsNow(rows)
    ensures Charter.Admissible(BindingsNow(rows), input)
            <==> !(Bound(BindingsNow(rows), input.axiom) && Charter.StatusOf(input) == Charter.Bound && !Charter.Given(input.supersedes))
  {
  }

  /** A version appended with one more step done. */
  lemma AppendTold(t: Targets, u: Targets, plan: seq<PlanAction>, n: nat, row: Charter.Version, now: int)
    requires n < |plan| && plan[n].action in {BIND, AMEND} && Told(t, u, plan, n)
    requires row.version == u.counter + 1 && row.supersedes == Charter.Next(u.rows, u.counter + 1, now).supersedes && Charter.OneLive(row.bindings)
    requires forall x :: Bound(row.bindings, x) <==> BoundAfter(Bound(BindingsNow(t.rows), x), plan[..n + 1], x)
    ensures Told(t, u.(counter := u.counter + 1, rows := u.rows + [row]), plan, n + 1)
  {
    hide Charter.CharterOk, Names, BoundAfter, Bound, Charter.OneLive, Charter.Next;
    Charter.NextKeepsOrder(u.rows, u.counter, u.counter + 1, row, now);
    forall x ensures Names(plan[..n + 1], UNBLOCK, x) == Names(plan[..n], UNBLOCK, x) { NamesNext(plan, n, UNBLOCK, x); }
    forall x ensures Names(plan[..n + 1], APPROVE, x) == Names(plan[..n], APPROVE, x) { NamesNext(plan, n, APPROVE, x); }
    assert plan[..n + 1][..n] == plan[..n];
  }

  lemma NowIsOneLive(rows: seq<Charter.Version>, counter: nat)
    requires Charter.CharterOk(rows, counter)
    ensures Charter.OneLive(BindingsNow(rows))
  {
  }

  lemma BindTold(t: Targets, u: Targets, d: Decision, proof: string, n: nat, now: int)
    requires n < |d.plan| && d.plan[n].action == BIND && Told(t, u, d.plan, n)
    requires Fire(u, d.id, proof, d.plan[n], now).1
    ensures Told(t, Fire(u, d.id, proof, d.plan[n], now).0, d.plan, n + 1)
  {
    hide Charter.CharterOk, Names, Bound, Told, Charter.OneLive, Charter.Admissible, Charter.AfterBind;
    var input := BindingInput(d.id, proof, d.plan[n]);
    var c := Charter.Next(u.rows, u.counter + 1, now);
    AdmitsIff(u.rows, u.counter + 1, now, input);
    ToldIsOk(t, u, d.plan, n);
    Charter.BindKeepsOneLive(c.bindings, input, now);
    var row := c.(bindings := Charter.AfterBind(c.bindings, input, now));
    forall x ensures Bound(row.bindings, x) <==> BoundAfter(Bound(BindingsNow(t.rows), x), d.plan[..n + 1], x) {
      BindBounds(c.bindings, input, now, x);
      assert d.plan[..n + 1][..n] == d.plan[..n];
      ToldIsBound(t, u, d.plan, n, x);
    }
    AppendTold(t, u, d.plan, n, row, now);
  }

  lemma ToldIsOk(t: Targets, u: Targets, plan: seq<PlanAction>, n: nat)
    requires n <= |plan| && Told(t, u, plan, n)
    ensures Charter.OneLive(BindingsNow(u.rows))
  {
    NowIsOneLive(u.rows, u.counter);
  }

  lemma ToldIsBound(t: Targets, u: Targets, plan: seq<PlanAction>, n: nat, x: string)
    requires n <= |plan| && Told(t, u, plan, n)
    ensures Bound(BindingsNow(u.rows), x) <==> BoundAfter(Bound(BindingsNow(t.rows), x), plan[..n], x)
  {
  }

  lemma AmendTold(t: Targets, u: Targets, d: Decision, proof: string, n: nat, now: int)
    requires n < |d.plan| && d.plan[n].action == AMEND && Told(t, u, d.plan, n)
    requires Fire(u, d.id, proof, d.plan[n], now).1
    ensures Told(t, Fire(u, d.id, proof, d.plan[n], now).0, d.plan, n + 1)
  {
    hide Charter.CharterOk, Names, Bound, Told, Charter.OneLive;
    ToldIsOk(t, u, d.plan, n);
    var u' := Fire(u, d.id, proof, d.plan[n], now).0;
    var row := u'.rows[|u.rows|];
    assert row.bindings == BindingsNow(u.rows) || row.bindings == [];
    forall x ensures Bound(row.bindings, x) <==> BoundAfter(Bound(BindingsNow(t.rows), x), d.plan[..n + 1], x) {
      assert d.plan[..n + 1][..n] == d.plan[..n];
      ToldIsBound(t, u, d.plan, n, x);
    }
    AppendTold(t, u, d.plan, n, row, now);
  }

  lemma TargetTold(t: Targets, u: Targets, d: Decision, proof: string, n: nat, now: int)
    requires n < |d.plan| && d.plan[n].action in {UNBLOCK, APPROVE} && Told(t, u, d.plan, n)
    requires Fire(u, d.id, proof, d.plan[n], now).1
    ensures Told(t, Fire(u, d.id, proof, d.plan[n], now).0, d.plan, n + 1)
  {
    hide Charter.CharterOk, Names, Bound;
    forall x ensures Names(d.plan[..n + 1], UNBLOCK, x) == (Names(d.plan[..n], UNBLOCK, x) || (d.plan[n].action == UNBLOCK && d.plan[n].targetRef == x)) { NamesNext(d.plan, n, UNBLOCK, x); }
    forall x ensures Names(d.plan[..n + 1], APPROVE, x) == (Names(d.plan[..n], APPROVE, x) || (d.plan[n].action == APPROVE && d.plan[n].targetRef == x)) { NamesNext(d.plan, n, APPROVE, x); }
    assert d.plan[..n + 1][..n] == d.plan[..n];
  }

  lemma StepTold(t: Targets, u: Targets, d: Decision, proof: string, n: nat, now: int)
    requires n < |d.plan| && d.plan[n].action in REGISTRY && Told(t, u, d.plan, n)
    requires Fire(u, d.id, proof, d.plan[n], now).1
    ensures Told(t, Fire(u, d.id, proof, d.plan[n], now).0, d.plan, n + 1)
  {
    hide Fire, Told;
    if d.plan[n].action == BIND { BindTold(t, u, d, proof, n, now); }
    else if d.plan[n].action == AMEND { AmendTold(t, u, d, proof, n, now); }
    else { TargetTold(t, u, d, proof, n, now); }
  }

  lemma TakenNone(t: Targets, d: Decision, proof: string, clock: nat -> int, others: Others)
    ensures Taken(t, d, proof, clock, others, 0) == t
  {
  }

  lemma NothingTold(t: Targets, plan: seq<PlanAction>)
    requires Charter.CharterOk(t.rows, t.counter)
    ensures Told(t, t, plan, 0)
  {
  }

  /** As long as every step has succeeded, and others kept away from what the plan names, the targets are what the steps alone
      tell. */
  lemma {:induction false} TakenIsTold(t: Targets, d: Decision, proof: string, clock: nat -> int, others: Others, n: nat)
    requires n <= |d.plan| && Charter.CharterOk(t.rows, t.counter) && (forall s | s in d.plan :: s.action in REGISTRY)
    requires forall i: nat, u {:trigger others(i)(u)} :: Aloof(d.plan, u, others(i)(u))
    requires forall i | 0 <= i < n :: Succeeds(t, d, proof, clock, others, i)
    ensures Told(t, Taken(t, d, proof, clock, others, n), d.plan, n)
    ensures Told(t, Met(t, d, proof, clock, others, n), d.plan, n)
  {
    hide Fire, Told, Aloof, Charter.CharterOk, Taken;
    if n > 0 {
      TakenIsTold(t, d, proof, clock, others, n - 1);
      assert d.plan[n - 1] in d.plan && Succeeds(t, d, proof, clock, others, n - 1);
      StepTold(t, Met(t, d, proof, clock, others, n - 1), d, proof, n - 1, clock(n - 1));
      TakenNext(t, d, proof, clock, others, n - 1);
    } else {
      NothingTold(t, d.plan);
      TakenNone(t, d, proof, clock, others);
    }
    AloofTold(t, Taken(t, d, proof, clock, others, n), Met(t, d, proof, clock, others, n), d.plan, n);
  }

  /** A plan that passed validation, carried out while others keep away from what it names, succeeds in every step exactly if
      each step is compatible with those before it. */
  lemma {:induction false} PlansSucceedIff(t: Targets, d: Decision, proof: string, clock: nat -> int, others: Others, n: nat)
    requires n <= |d.plan| && Charter.CharterOk(t.rows, t.counter) && Passes(t, d)
    requires forall i: nat, u {:trigger others(i)(u)} :: Aloof(d.plan, u, others(i)(u))
    ensures (forall i | 0 <= i < n :: Succeeds(t, d, proof, clock, others, i)) <==> (forall i | 0 <= i < n :: Compatible(t, d.plan, i))
  {
    hide Fire, Told, Compatible, Aloof, Charter.CharterOk, Fits;
    if n > 0 {
      PlansSucceedIff(t, d, proof, clock, others, n - 1);
      InRegistry(t, d);
      if forall i | 0 <= i < n - 1 :: Succeeds(t, d, proof, clock, others, i) {
        TakenIsTold(t, d, proof, clock, others, n - 1);
        SucceedsIff(t, Met(t, d, proof, clock, others, n - 1), d, proof, n - 1, clock(n - 1));
        assert Succeeds(t, d, proof, clock, others, n - 1) <==> Compatible(t, d.plan, n - 1);
      }
    }
  }

  lemma InRegistry(t: Targets, d: Decision)
    requires Passes(t, d)
    ensures forall s | s in d.plan :: s.action in REGISTRY
  {
    forall s | s in d.plan ensures s.action in REGISTRY {
      var i :| 0 <= i < |d.plan| && d.plan[i] == s;
      assert Fits(t, d, d.plan[i]);
    }
  }

  /** Passing is not enough: a plan that approves one proposal twice passes, and fires its first step before the
      second fails. */
  lemma AValidPlanCanFailHalfway(id: string, proof: string, clock: nat -> int) returns (t: Targets, d: Decision)
    ensures Charter.CharterOk(t.rows, t.counter) && Passes(t, d) && d.id == id && |d.plan| == 2
    ensures Succeeds(t, d, proof, clock, NOBODY, 0) && !Succeeds(t, d, proof, clock, NOBODY, 1) && Taken(t, d, proof, clock, NOBODY, 2) != t
  {
    t := Targets(map[], map["prop-1" := Proposal(Submitted, true)], None, [], 0);
    var raiser := Actor("a", "architect", None);
    d := Fresh(id, RaiseInput(None, None, "", "", [], [], raiser), 0).(plan := [PlanAction(APPROVE, "prop-1", None), PlanAction(APPROVE, "prop-1", None)]);
    var u := Taken(t, d, proof, clock, NOBODY, 1);
    assert Taken(t, d, proof, clock, NOBODY, 0) == t && u == Fire(t, id, proof, d.plan[0], clock(0)).0;
    assert u.proposals["prop-1"] == Proposal(Approved, true);
    assert Taken(t, d, proof, clock, NOBODY, 2) == u;
  }

  /** How one step moves the targets: only those it names, and only the way it should. */
  ghost predicate Confined(t: Targets, u: Targets, id: string, s: PlanAction) {
    && u.items.Keys == t.items.Keys && u.proposals.Keys == t.proposals.Keys && u.axioms == t.axioms && t.rows <= u.rows
    && (forall x | x in t.items && u.items[x] != t.items[x] ::
          s.action == UNBLOCK && s.targetRef == x && t.items[x].phase == Blocked && id in t.items[x].blockers && u.items[x] == WorkItem(InProgress, [], false))
    && (forall x | x in t.proposals && u.proposals[x] != t.proposals[x] ::
          s.action == APPROVE && s.targetRef == x && t.proposals[x].status == Submitted && u.proposals[x].status == Approved)
  }

  lemma StepConfined(t: Targets, id: string, proof: string, s: PlanAction, now: int)
    ensures Confined(t, Fire(t, id, proof, s, now).0, id, s)
  {
    hide Charter.Admissible, Charter.AfterBind, Charter.Next;
  }

  /** One step, whatever others did before it. */
  lemma StepTaken(t: Targets, d: Decision, proof: string, clock: nat -> int, others: Others, n: nat)
    requires n < |d.plan|
    ensures Confined(Met(t, d, proof, clock, others, n), Taken(t, d, proof, clock, others, n + 1), d.id, d.plan[n])
  {
    hide Fire, Confined;
    StepConfined(Met(t, d, proof, clock, others, n), d.id, proof, d.plan[n], clock(n));
  }

  /** What a plan and others who keep away from what it names make of the named targets and the charter: an item moved only
      if a step up to here names it and it was blocked on this very decision, a proposal only from submitted to approved
      and if a step names it, and the charter only grew. */
  ghost predicate NamedConfined(t: Targets, u: Targets, d: Decision, n: nat)
    requires n <= |d.plan|
  {
    && t.rows <= u.rows
    && (forall x | Names(d.plan, UNBLOCK, x) :: (x in u.items <==> x in t.items)
          && (x in t.items && u.items[x] != t.items[x] ==>
                Names(d.plan[..n], UNBLOCK, x) && t.items[x].phase == Blocked && d.id in t.items[x].blockers && u.items[x] == WorkItem(InProgress, [], false)))
    && (forall x | Names(d.plan, APPROVE, x) :: (x in u.proposals <==> x in t.proposals)
          && (x in t.proposals && u.proposals[x] != t.proposals[x] ==>
                Names(d.plan[..n], APPROVE, x) && t.proposals[x].status == Submitted && u.proposals[x].status == Approved))
  }

  /** Whatever the plan, however far it gets and whatever fails, among others who keep away from what it names. */
  lemma {:induction false} EffectsAreConfined(t: Targets, d: Decision, proof: string, clock: nat -> int, others: Others, n: nat)
    requires n <= |d.plan|
    requires forall i: nat, u {:trigger others(i)(u)} :: Aloof(d.plan, u, others(i)(u))
    ensures NamedConfined(t, Taken(t, d, proof, clock, others, n), d, n)
  {
    hide Names, Fire;
    if n > 0 {
      EffectsAreConfined(t, d, proof, clock, others, n - 1);
      var s := d.plan[n - 1];
      forall a, x ensures Names(d.plan[..n], a, x) == (Names(d.plan[..n - 1], a, x) || (s.action == a && s.targetRef == x)) { NamesNext(d.plan, n - 1, a, x); }
      AloofConfined(t, Taken(t, d, proof, clock, others, n - 1), Met(t, d, proof, clock, others, n - 1), d, n - 1);
      StepTaken(t, d, proof, clock, others, n - 1);
    }
  }

  lemma AloofConfined(t: Targets, u: Targets, v: Targets, d: Decision, n: nat)
    requires n <= |d.plan| && NamedConfined(t, u, d, n) && Aloof(d.plan, u, v)
    ensures NamedConfined(t, v, d, n)
  {
    hide Names;
  }

  /** And with nobody else about, over the whole plan: whatever moved is named, and moved the way it should. */
  lemma {:induction false} AloneEffectsAreConfined(t: Targets, d: Decision, proof: string, clock: nat -> int, n: nat)
    requires n <= |d.plan|
    ensures var u := Taken(t, d, proof, clock, NOBODY, n);
            && u.items.Keys == t.items.Keys && u.proposals.Keys == t.proposals.Keys && u.axioms == t.axioms && t.rows <= u.rows
            && (forall x | x in t.items && u.items[x] != t.items[x] ::
                  Names(d.plan[..n], UNBLOCK, x) && t.items[x].phase == Blocked && d.id in t.items[x].blockers && u.items[x] == WorkItem(InProgress, [], false))
            && (forall x | x in t.proposals && u.proposals[x] != t.proposals[x] ::
                  Names(d.plan[..n], APPROVE, x) && t.proposals[x].status == Submitted && u.proposals[x].status == Approved)
  {
    hide Names, Fire;
    if n > 0 {
      AloneEffectsAreConfined(t, d, proof, clock, n - 1);
      var s, u := d.plan[n - 1], Taken(t, d, proof, clock, NOBODY, n - 1);
      forall a, x ensures Names(d.plan[..n], a, x) == (Names(d.plan[..n - 1], a, x) || (s.action == a && s.targetRef == x)) { NamesNext(d.plan, n - 1, a, x); }
      StepTaken(t, d, proof, clock, NOBODY, n - 1);
    }
  }

  /* ------------------------------------------------------------------ what the charter steps write */

  /** The row a charter step adds: a binding with what the step's parameters say, or the section it names. */
  ghost predicate WritesCharter(row: Charter.Version, base: Option<Charter.Version>, version: nat, id: string, proof: string, s: PlanAction, now: int) {
    && Charter.Follows(row, base, version, now)
    && (s.action == "bind_axiom" ==>
          && row.bindings != [] && var b := row.bindings[|row.bindings| - 1];
          && b.axiom == s.targetRef && b.ratifiedBy == id && b.proofRef == proof
          && b.predecessor == (if s.params == None then None else s.params.value.predecessor)
          && b.supersedes == (if s.params == None then None else s.params.value.supersedes)
          && (s.params == None || s.params.value.status in {None, Some("bound")} ==> b.status == Charter.Bound)
          && (s.params.Some? && s.params.value.status == Some("superseded") ==> b.status == Charter.Superseded)
          && (s.params.Some? && s.params.value.status == Some("unbound") ==> b.status == Charter.Unbound)
          && Charter.BoundOn(row, base, Charter.BindInput(b.axiom, b.predecessor, Some(b.status), b.supersedes, id, proof), now))
    && (s.action == "amend_charter" && s.params.Some? && s.params.value.text.Some? ==>
          && (s.targetRef == "vision" ==> Charter.AmendedOn(row, base, Charter.Vision, s.params.value.text.value, id, proof, now))
          && (s.targetRef == "directorProfile" ==> Charter.AmendedOn(row, base, Charter.DirectorProfile, s.params.value.text.value, id, proof, now)))
  }

  /** What stops a charter step: a full charter, a reference to itself, or a live binding it does not say it supersedes. */
  predicate Stopped(rows: seq<Charter.Version>, s: PlanAction) {
    || |rows| >= 500
    || (s.action == "bind_axiom" && s.params.Some? && Some(s.targetRef) in {s.params.value.predecessor, s.params.value.supersedes})
    || (s.action == "bind_axiom" && rows != [] && (exists b | b in rows[|rows| - 1].bindings :: b.axiom == s.targetRef && b.status == Charter.Bound)
        && (s.params.Some? ==> s.params.value.status in {None, Some("bound")} && s.params.value.supersedes in {None, Some("")}))
  }

  /** A step that is carried out adds its row under the next number; one that is stopped adds none. */
  ghost predicate Written(u: Targets, v: Targets, id: string, proof: string, s: PlanAction, now: int) {
    if Stopped(u.rows, s) then v.rows == u.rows
    else
      && v.counter == u.counter + 1 && |v.rows| == |u.rows| + 1 && v.rows[..|u.rows|] == u.rows
      && WritesCharter(v.rows[|u.rows|], Charter.Last(u.rows), u.counter + 1, id, proof, s, now)
  }

  lemma BindWrites(t: Targets, id: string, proof: string, s: PlanAction, now: int)
    requires s.action == BIND && (s.params.Some? && s.params.value.status.Some? ==> s.params.value.status.value in STATUSES)
    ensures var (u, ok) := Fire(t, id, proof, s, now); (ok <==> !Stopped(t.rows, s)) && Written(t, u, id, proof, s, now)
  {
    hide Charter.Admissible, Charter.AfterBind, Charter.BoundOn, Charter.LiveIndex;
    var input := BindingInput(id, proof, s);
    Charter.AdmissibleMeans(Charter.Last(t.rows), t.counter + 1, now, input);
    Charter.BindMeans(Charter.Last(t.rows), t.counter + 1, now, input);
    var (u, ok) := Fire(t, id, proof, s, now);
    if ok { SaidInFull(u.rows[|t.rows|], Charter.Last(t.rows), input, now); }
  }

  /** A bind that leaves its status unsaid is one that says bound. */
  lemma SaidInFull(row: Charter.Version, base: Option<Charter.Version>, input: Charter.BindInput, now: int)
    requires Charter.BoundOn(row, base, input, now)
    ensures row.bindings != [] && var b := row.bindings[|row.bindings| - 1];
            && b.axiom == input.axiom && b.predecessor == input.predecessor && b.supersedes == input.supersedes && b.ratifiedBy == input.ratifiedBy
            && b.proofRef == input.proofRef && b.status == Charter.StatusOf(input)
            && Charter.BoundOn(row, base, Charter.BindInput(b.axiom, b.predecessor, Some(b.status), b.supersedes, b.ratifiedBy, b.proofRef), now)
  {
  }

  lemma AmendWrites(t: Targets, id: string, proof: string, s: PlanAction, now: int)
    requires s.action == AMEND
    ensures var (u, ok) := Fire(t, id, proof, s, now); (ok <==> !Stopped(t.rows, s)) && Written(t, u, id, proof, s, now)
  {
  }

  lemma TakenNext(t: Targets, d: Decision, proof: string, clock: nat -> int, others: Others, n: nat)
    requires n < |d.plan|
    ensures Taken(t, d, proof, clock, others, n + 1) == Fire(Met(t, d, proof, clock, others, n), d.id, proof, d.plan[n], clock(n)).0
  {
    hide Fire;
  }

  lemma FitStatus(t: Targets, d: Decision, s: PlanAction)
    requires Fits(t, d, s)
    ensures s.action == BIND && s.params.Some? && s.params.value.status.Some? ==> s.params.value.status.value in STATUSES
    ensures s.action == AMEND ==> s.targetRef in SECTIONS && s.params.Some? && s.params.value.text.Some?
    ensures s.action in REGISTRY
  {
  }

  /** A charter step that passed its checks does to the charter it meets just what it says, unless one of the three things
      that can stop it does. */
  lemma CharterStepsWrite(t: Targets, d: Decision, proof: string, clock: nat -> int, others: Others, n: nat)
    requires n < |d.plan| && d.plan[n].action in {"bind_axiom", "amend_charter"} && exists t0 :: Fits(t0, d, d.plan[n])
    ensures var u, v := Met(t, d, proof, clock, others, n), Taken(t, d, proof, clock, others, n + 1);
            (Succeeds(t, d, proof, clock, others, n) <==> !Stopped(u.rows, d.plan[n])) && Written(u, v, d.id, proof, d.plan[n], clock(n))
  {
    hide Fire, Met, Taken, Written, Stopped, Fits;
    var u := Met(t, d, proof, clock, others, n);
    TakenNext(t, d, proof, clock, others, n);
    var t0 :| Fits(t0, d, d.plan[n]);
    FitStatus(t0, d, d.plan[n]);
    if d.plan[n].action == BIND { BindWrites(u, d.id, proof, d.plan[n], clock(n)); } else { AmendWrites(u, d.id, proof, d.plan[n], clock(n)); }
  }

  /** The section of the current charter a plan names. */
  function SectionNow(rows: seq<Charter.Version>, name: string): Option<Charter.Section> {
    if rows == [] then None else if name == "vision" then rows[|rows| - 1].vision else rows[|rows| - 1].profile
  }

  predicate Amends(s: PlanAction, name: string) {
    s.action == "amend_charter" && s.targetRef == name && s.params.Some? && s.params.value.text.Some?
  }

  /** As long as every step has succeeded, and others kept away, a section of the charter reads as the last step to amend it
      says, and as it did at first if none does: `k` steps reach up to that last one. */
  lemma {:induction false} SectionsAreTold(t: Targets, d: Decision, proof: string, clock: nat -> int, others: Others, n: nat, name: string, k: nat)
    requires k <= n <= |d.plan| && name in {"vision", "directorProfile"} && Passes(t, d)
    requires forall i: nat, u {:trigger others(i)(u)} :: Aloof(d.plan, u, others(i)(u))
    requires forall i | 0 <= i < n :: Succeeds(t, d, proof, clock, others, i)
    requires (k > 0 ==> Amends(d.plan[k - 1], name)) && forall i | k <= i < n :: !Amends(d.plan[i], name)
    ensures SectionNow(Taken(t, d, proof, clock, others, n).rows, name)
            == if k == 0 then SectionNow(t.rows, name) else Some(Charter.Section(d.plan[k - 1].params.value.text.value, d.id + ":" + proof, clock(k - 1)))
  {
    hide Fire, Succeeds, Fits, Aloof, Amends, SectionNow;
    if n > 0 {
      var before := Taken(t, d, proof, clock, others, n - 1);
      assert Fits(t, d, d.plan[n - 1]) && Succeeds(t, d, proof, clock, others, n - 1);
      StepReads(t, d, proof, clock, others, n - 1, name);
      if k < n {
        SectionsAreTold(t, d, proof, clock, others, n - 1, name, k);
        AloofRows(d.plan, others, n - 1, before);
        assert Met(t, d, proof, clock, others, n - 1).rows == before.rows;
      }
    }
  }

  lemma AloofRows(plan: seq<PlanAction>, others: Others, i: nat, u: Targets)
    requires Aloof(plan, u, others(i)(u))
    ensures others(i)(u).rows == u.rows
  {
  }

  /** One step that succeeds writes the section if it amends it, and leaves it alone otherwise. */
  lemma StepReads(t: Targets, d: Decision, proof: string, clock: nat -> int, others: Others, n: nat, name: string)
    requires n < |d.plan| && name in {"vision", "directorProfile"} && Succeeds(t, d, proof, clock, others, n) && exists t0 :: Fits(t0, d, d.plan[n])
    ensures SectionNow(Taken(t, d, proof, clock, others, n + 1).rows, name)
            == if Amends(d.plan[n], name) then Some(Charter.Section(d.plan[n].params.value.text.value, d.id + ":" + proof, clock(n)))
               else SectionNow(Met(t, d, proof, clock, others, n).rows, name)
  {
    hide Met, Stopped, Taken, Fits;
    TakenNext(t, d, proof, clock, others, n);
    var t0 :| Fits(t0, d, d.plan[n]);
    FitStatus(t0, d, d.plan[n]);
    if d.plan[n].action in {BIND, AMEND} {
      hide Fire, Succeeds;
      CharterStepsWrite(t, d, proof, clock, others, n);
    }
  }
}
