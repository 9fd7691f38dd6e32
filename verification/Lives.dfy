/** A decision told from its life: the verbs applied to it, and when.  Every field of a stored row is what the latest, or
    the first, verb that speaks of it said, and every millisecond is charged to the phase it was spent in. */
module Lives {
  import opened Substrate
  import opened Histories
  import opened Decisions
  import opened DirectorProof
  import opened Rail
  import opened RailSafety
  import opened RailTheorems

  datatype Deed = Deed(verb: Verb, now: int)

  datatype Life = Life(input: RaiseInput, born: int, deeds: seq<Deed>)

  /** The row these verbs make, one after the other, if each is allowed where it comes. */
  function After(first: Decision, deeds: seq<Deed>): Option<Decision>
    decreases |deeds|
  {
    if deeds == [] then Some(first)
    else
      match After(first, deeds[..|deeds| - 1])
      case None => None
      case Some(d) =>
        var last := deeds[|deeds| - 1];
        if Allowed(d, last.verb) then Some(Transform(d, last.verb, last.now)) else None
  }

  /* ------------------------------------------------------------------ what the verbs say */

  function MovesTo(e: Deed): Option<Phase> { Target(e.verb) }

  function MovesAt(e: Deed): Option<int> { if Target(e.verb).Some? then Some(e.now) else None }

  function HappensAt(e: Deed): Option<int> { Some(e.now) }

  function SaysClass(e: Deed): Option<string> { if e.verb.Curate? then e.verb.cls else None }

  function SaysRecord(e: Deed): Option<string> { if e.verb.Curate? then e.verb.recordRef else None }

  function SaysCurator(e: Deed): Option<Actor> { if e.verb.Curate? || e.verb.Merge? || e.verb.Dispose? then Some(e.verb.curator) else None }

  function SaysRoute(e: Deed): Option<Route> { if e.verb.RouteTo? then Some(e.verb.route) else None }

  function SaysRouter(e: Deed): Option<Actor> { if e.verb.RouteTo? then Some(e.verb.router) else None }

  function SaysPlan(e: Deed): Option<seq<PlanAction>> { if e.verb.RouteTo? then Some(e.verb.plan) else None }

  function SaysResolution(e: Deed): Option<Resolution> {
    match e.verb
    case Resolve(executor, answer, mode, ref, rationale) => Some(Resolution(mode, ref, executor, answer, rationale, e.now))
    case _ => None
  }

  function SaysTarget(e: Deed): Option<string> { if e.verb.Merge? then Some(e.verb.into) else None }

  function SaysReason(e: Deed): Option<string> { if e.verb.Dispose? then Some(e.verb.reason) else None }

  function SaysBinding(e: Deed): Option<ExecutorBinding> { if e.verb.BindExecutor? then Some(e.verb.binding) else None }

  /** The phase these verbs lead to, and when they led there. */
  function PhaseAfter(deeds: seq<Deed>): Phase {
    Default(Latest(deeds, MovesTo), Raised)
  }

  function EnteredAfter(deeds: seq<Deed>, born: int): int {
    Default(Latest(deeds, MovesAt), born)
  }

  /** The time these verbs left in phase `p`: a stay ends with the next move, and counts nothing if the clock went back. */
  function Spent(deeds: seq<Deed>, born: int, p: Phase): int
    decreases |deeds|
  {
    if deeds == [] then 0
    else
      var before, last := deeds[..|deeds| - 1], deeds[|deeds| - 1];
      Spent(before, born, p) + if Target(last.verb).Some? && PhaseAfter(before) == p then Max(0, last.now - EnteredAfter(before, born)) else 0
  }

  /** Where the row is, since when, and how long it was where. */
  ghost predicate TellsTime(born: int, deeds: seq<Deed>, d: Decision) {
    && d.createdAt == born && d.updatedAt == Default(Latest(deeds, HappensAt), born)
    && d.status == PhaseAfter(deeds) && d.enteredAt == EnteredAfter(deeds, born)
    && d.dwell == Dwell(Spent(deeds, born, Raised), Spent(deeds, born, Curated), Spent(deeds, born, Routed), Spent(deeds, born, Phase.Resolved))
  }

  ghost predicate TellsWords(input: RaiseInput, deeds: seq<Deed>, d: Decision) {
    && d.parentRef == input.parentRef && d.title == input.title && d.context == input.context
    && d.contextRefs == input.contextRefs && d.options == input.options && d.raisedBy == input.raisedBy
    && d.cls == OrElse(Latest(deeds, SaysClass), input.cls) && d.curationRecordRef == Latest(deeds, SaysRecord)
    && d.curatedBy == Earliest(deeds, SaysCurator)
    && d.routedTo == Latest(deeds, SaysRoute) && d.routedBy == Latest(deeds, SaysRouter) && d.plan == Default(Latest(deeds, SaysPlan), [])
    && d.resolution == Latest(deeds, SaysResolution) && d.binding == Latest(deeds, SaysBinding)
    && d.mergedInto == Latest(deeds, SaysTarget) && d.disposedReason == Latest(deeds, SaysReason)
  }

  /** The row is just what its life says. */
  ghost predicate Tells(life: Life, id: string, d: Decision) {
    d.id == id && TellsTime(life.born, life.deeds, d) && TellsWords(life.input, life.deeds, d)
  }

  lemma MoveIs(d: Decision, v: Verb, now: int)
    requires Allowed(d, v)
    ensures var e, spent := Transform(d, v, now), if Target(v).Some? then Max(0, now - d.enteredAt) else 0;
            && e.createdAt == d.createdAt && e.updatedAt == now
            && e.status == Default(Target(v), d.status) && e.enteredAt == (if Target(v).Some? then now else d.enteredAt)
            && e.dwell == Dwell(d.dwell.raised + if d.status == Raised then spent else 0, d.dwell.curated + if d.status == Curated then spent else 0,
                                d.dwell.routed + if d.status == Routed then spent else 0, d.dwell.resolved + if d.status == Phase.Resolved then spent else 0)
  {
  }

  lemma OneMoreMove(born: int, deeds: seq<Deed>, d: Decision, v: Verb, now: int)
    requires deeds != [] && deeds[|deeds| - 1] == Deed(v, now)
    requires TellsTime(born, deeds[..|deeds| - 1], d) && Allowed(d, v)
    ensures TellsTime(born, deeds, Transform(d, v, now))
  {
    hide Transform, Allowed, Max;
    MoveIs(d, v, now);
  }

  lemma OneMoreWord(input: RaiseInput, deeds: seq<Deed>, d: Decision, v: Verb, now: int)
    requires deeds != [] && deeds[|deeds| - 1] == Deed(v, now)
    requires TellsWords(input, deeds[..|deeds| - 1], d) && WellFormed(d) && Allowed(d, v)
    ensures TellsWords(input, deeds, Transform(d, v, now))
  {
    hide Accrue;
  }

  /** Any row that verbs make from a fresh one is what they say. */
  lemma {:induction false} LivesTell(life: Life, id: string, d: Decision)
    requires After(Fresh(id, life.input, life.born), life.deeds) == Some(d)
    ensures Tells(life, id, d) && WellFormed(d)
    decreases |life.deeds|
  {
    if life.deeds != [] {
      hide TellsTime, TellsWords, WellFormed, Transform, Allowed;
      var n := |life.deeds| - 1;
      var last, before := life.deeds[n], life.(deeds := life.deeds[..n]);
      var mid := After(Fresh(id, life.input, life.born), before.deeds).value;
      LivesTell(before, id, mid);
      OneMoreMove(life.born, life.deeds, mid, last.verb, last.now);
      OneMoreWord(life.input, life.deeds, mid, last.verb, last.now);
      TransformGrows(mid, last.verb, last.now);
    }
  }

  /* ------------------------------------------------------------------ every stored row has one */

  ghost predicate Lived(d: Decision, id: string) {
    exists life: Life :: After(Fresh(id, life.input, life.born), life.deeds) == Some(d)
  }

  ghost predicate AllLived(w: World) {
    forall id {:trigger id in w.db.decisions} | id in w.db.decisions :: Lived(w.db.decisions[id].row, id)
  }

  lemma FreshLives(id: string, input: RaiseInput, now: int)
    ensures Lived(Fresh(id, input, now), id)
  {
    assert After(Fresh(id, input, now), Life(input, now, []).deeds) == Some(Fresh(id, input, now));
  }

  lemma LivesOn(d: Decision, id: string, v: Verb, now: int)
    requires Lived(d, id) && Allowed(d, v)
    ensures Lived(Transform(d, v, now), id)
  {
    hide Allowed, Transform, Fresh;
    var life: Life :| After(Fresh(id, life.input, life.born), life.deeds) == Some(d);
    var more := life.(deeds := life.deeds + [Deed(v, now)]);
    assert more.deeds[..|life.deeds|] == life.deeds;
    assert After(Fresh(id, more.input, more.born), more.deeds) == Some(Transform(d, v, now));
  }

  lemma StepLives(w: World, s: Step)
    requires Inv(w) && AllLived(w)
    ensures AllLived(Do(w, s))
  {
    hide Inv, Lived, Do;
    if s.Raise? { RaiseLives(w, s); }
    else if s.Commit? && s.k in w.calls && w.calls[s.k].Loaded? { CommitLives(w, s); }
    else { QuietDecisions(w, s); }
  }

  lemma RaiseLives(w: World, s: Step)
    requires s.Raise? && AllLived(w)
    ensures AllLived(Do(w, s))
  {
    hide Lived, Fresh;
    FreshLives(s.id, s.input, s.now);
  }

  lemma CommitLives(w: World, s: Step)
    requires Inv(w) && AllLived(w) && s.Commit? && s.k in w.calls && w.calls[s.k].Loaded?
    ensures AllLived(Do(w, s))
  {
    hide Inv, Lived, Allowed, Transform, DoCommit;
    var c := w.calls[s.k];
    CommitShape(w, s.k);
    if DoCommit(w, s.k).db.decisions != w.db.decisions { LivesOn(c.seen.row, c.id, c.verb, c.now); }
  }

  lemma {:induction false} RunLives(w: World, steps: seq<Step>)
    requires Inv(w) && AllLived(w)
    ensures AllLived(Run(w, steps))
    decreases |steps|
  {
    hide Inv, AllLived, Do;
    if steps != [] {
      StepSafe(w, steps[0]);
      StepLives(w, steps[0]);
      RunLives(Do(w, steps[0]), steps[1..]);
    }
  }

  /** In every reachable state every decision row is told by a life of allowed verbs, however many callers raced for it. */
  lemma EveryRowIsALifeTold(hash: Hash, steps: seq<Step>, id: string) returns (life: Life)
    requires id in Reached(hash, steps).db.decisions
    ensures After(Fresh(id, life.input, life.born), life.deeds) == Some(Reached(hash, steps).db.decisions[id].row)
    ensures Tells(life, id, Reached(hash, steps).db.decisions[id].row)
  {
    hide Tells;
    InitInv(hash);
    RunLives(Init(hash), steps);
    var d := Reached(hash, steps).db.decisions[id].row;
    assert Lived(d, id);
    life :| After(Fresh(id, life.input, life.born), life.deeds) == Some(d);
    LivesTell(life, id, d);
  }
}
