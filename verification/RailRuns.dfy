/** Runs in which the rail does what its design does not want: nobody crashes, and no call is left in flight. */
module RailRuns {
  import opened Substrate
  import opened Decisions
  import opened DirectorProof
  import opened ClassGrants
  import opened Rail
  import opened RailSafety
  import opened RailTheorems
  import opened RailTrail

  /* ------------------------------------------------------------------ what whole calls do */

  lemma RunOne(w: World, s: Step)
    ensures Run(w, [s]) == Do(w, s)
  {
    hide Do;
    assert [s][1..] == [];
  }

  lemma RunTwo(w: World, s: Step, t: Step)
    ensures Run(w, [s, t]) == Do(Do(w, s), t)
  {
    hide Do;
    RunAppend(w, [s], [t]);
    assert [s] + [t] == [s, t];
  }

  lemma RunThree(w: World, s: Step, t: Step, u: Step)
    ensures Run(w, [s, t, u]) == Do(Do(Do(w, s), t), u)
  {
    hide Do;
    RunTwo(w, s, t);
    RunAppend(w, [s, t], [u]);
    assert [s, t] + [u] == [s, t, u];
  }

  predicate Crashless(steps: seq<Step>) {
    forall s | s in steps :: !s.Abandon?
  }

  lemma Onto(hash: Hash, steps: seq<Step>, more: seq<Step>)
    requires Crashless(steps) && Crashless(more)
    ensures Reached(hash, steps + more) == Run(Reached(hash, steps), more) && Crashless(steps + more)
  {
    hide Do;
    RunAppend(Init(hash), steps, more);
  }

  const WHO := Actor("agent-1", "architect", None)

  function Input(context: string): RaiseInput {
    RaiseInput(None, Some("ops"), "title", context, [], [], WHO)
  }

  function Capture(rawId: string, input: RaiseInput, now: int): Raw {
    Raw(rawId, input.title, input.context, input.cls, input.options, input.contextRefs, input.raisedBy, now)
  }

  lemma RaiseDoes(w: World, k: CallId, id: string, input: RaiseInput, rawId: string, now: int)
    requires k !in w.calls && id !in w.db.decisions
    ensures var u := Do(w, Raise(k, id, input, rawId, now));
            && u.hash == w.hash && u.db == w.db.(rev := w.db.rev + 1, decisions := w.db.decisions[id := Versioned(Fresh(id, input, now), w.db.rev + 1)])
            && u.calls == w.calls[k := RawOwed(id, Capture(rawId, input, now))] && u.locks == w.locks
            && u.past.acts == w.past.acts && u.past.lost == w.past.lost
  {
  }

  lemma CaptureDoes(w: World, k: CallId)
    requires k in w.calls && w.calls[k].RawOwed?
    ensures var u := Do(w, WriteRaw(k)); var c := w.calls[k];
            && u.hash == w.hash && u.db == w.db.(raws := w.db.raws[c.id := c.raw]) && u.calls == w.calls - {k} && u.locks == w.locks && u.past == w.past
  {
  }

  /** Raised and captured. */
  lemma RaiseRun(w: World, k: CallId, id: string, input: RaiseInput, rawId: string, now: int) returns (steps: seq<Step>)
    requires k !in w.calls && id !in w.db.decisions
    ensures Crashless(steps) && var u := Run(w, steps);
            && u.hash == w.hash && u.calls == w.calls && u.locks == w.locks && u.past.acts == w.past.acts && u.past.lost == w.past.lost
            && u.db == w.db.(rev := w.db.rev + 1, decisions := w.db.decisions[id := Versioned(Fresh(id, input, now), w.db.rev + 1)],
                             raws := w.db.raws[id := Capture(rawId, input, now)])
  {
    hide Do;
    steps := [Raise(k, id, input, rawId, now), WriteRaw(k)];
    RunTwo(w, Raise(k, id, input, rawId, now), WriteRaw(k));
    RaiseDoes(w, k, id, input, rawId, now);
    CaptureDoes(Do(w, Raise(k, id, input, rawId, now)), k);
    assert w.calls[k := RawOwed(id, Capture(rawId, input, now))] - {k} == w.calls;
  }

  function ReadFirst(w: World, id: string, verb: Verb): Option<Decision> {
    if verb.Curate? && id in w.db.decisions then Some(w.db.decisions[id].row) else None
  }

  predicate Begins(w: World, id: string, verb: Verb) {
    !verb.Resolve? && !verb.Dispose? && (verb.Merge? ==> verb.into != id && verb.into in w.db.decisions)
  }

  lemma VerbBegins(w: World, k: CallId, id: string, verb: Verb)
    requires k !in w.calls && Begins(w, id, verb)
    ensures Do(w, Begin(k, id, verb)) == At(w, k, Ready(id, verb, ReadFirst(w, id, verb)))
  {
  }

  lemma VerbLoads(w: World, k: CallId, now: int)
    requires k in w.calls && w.calls[k].Ready? && w.calls[k].id in w.db.decisions && Allowed(w.db.decisions[w.calls[k].id].row, w.calls[k].verb)
    ensures var u := Do(w, Load(k, now)); var c := w.calls[k];
            && u.hash == w.hash && u.db == w.db && u.calls == w.calls[k := Loaded(c.id, c.verb, c.before, w.db.decisions[c.id], now)] && u.locks == w.locks
            && u.past.acts == w.past.acts && u.past.lost == w.past.lost
  {
  }

  /** What a commit that lands leaves, the resolve verb aside. */
  ghost predicate Landed(w: World, u: World, k: CallId, id: string, verb: Verb, before: Option<Decision>, now: int)
    requires id in w.db.decisions && Allowed(w.db.decisions[id].row, verb)
  {
    var o := Owed(id, verb, before);
    && u.hash == w.hash && u.locks == w.locks
    && u.db == w.db.(rev := w.db.rev + 1, decisions := w.db.decisions[id := Versioned(Transform(w.db.decisions[id].row, verb, now), w.db.rev + 1)])
    && u.past.acts == Noted(w.past.acts, o) && u.past.lost == w.past.lost
    && u.calls == if o.Some? then w.calls[k := TrailOwed(|w.past.acts|, None, None)] else w.calls - {k}
  }

  lemma VerbLands(w: World, k: CallId, id: string, verb: Verb, before: Option<Decision>, now: int)
    requires k in w.calls && id in w.db.decisions && w.calls[k] == Loaded(id, verb, before, w.db.decisions[id], now)
    requires Allowed(w.db.decisions[id].row, verb) && !verb.Resolve? && (verb.Curate? ==> before.Some?)
    ensures Landed(w, Do(w, Commit(k)), k, id, verb, before, now)
  {
    hide Transform, Allowed, AfterCommit, Owed;
    var next := Transform(w.db.decisions[id].row, verb, now);
    var u := Put(w, w.db.(decisions := w.db.decisions[id := Versioned(next, w.db.rev + 1)]));
    AfterwardsDoes(u, k, id, verb, before, next);
  }

  lemma AfterwardsDoes(w: World, k: CallId, id: string, verb: Verb, before: Option<Decision>, next: Decision)
    requires k in w.calls && w.calls[k].Loaded? && w.calls[k].verb == verb && !verb.Resolve? && (verb.Curate? ==> before.Some?)
    ensures var u := AfterCommit(w, k, id, verb, before, next); var o := Owed(id, verb, before);
            && u.hash == w.hash && u.locks == w.locks && u.db == w.db && u.past.acts == Noted(w.past.acts, o) && u.past.lost == w.past.lost
            && u.calls == if o.Some? then w.calls[k := TrailOwed(|w.past.acts|, None, None)] else w.calls - {k}
  {
    hide Owed;
  }

  /** A whole call of a decision verb, its trail record aside. */
  lemma VerbRun(w: World, k: CallId, id: string, verb: Verb, now: int) returns (steps: seq<Step>)
    requires k !in w.calls && id in w.db.decisions && Begins(w, id, verb) && Allowed(w.db.decisions[id].row, verb)
    ensures Crashless(steps) && Landed(w, Run(w, steps), k, id, verb, ReadFirst(w, id, verb), now)
  {
    hide Do, Allowed, Transform, Owed;
    steps := [Begin(k, id, verb), Load(k, now), Commit(k)];
    RunThree(w, Begin(k, id, verb), Load(k, now), Commit(k));
    VerbBegins(w, k, id, verb);
    var a := Do(w, Begin(k, id, verb));
    VerbLoads(a, k, now);
    var b := Do(a, Load(k, now));
    VerbLands(b, k, id, verb, ReadFirst(w, id, verb), now);
    assert b.calls[k := TrailOwed(|w.past.acts|, None, None)] == w.calls[k := TrailOwed(|w.past.acts|, None, None)];
    assert b.calls - {k} == w.calls - {k};
  }

  lemma TargetReadDoes(w: World, k: CallId)
    requires k in w.calls && w.calls[k].TrailOwed? && w.calls[k].target.None? && w.calls[k].own.None?
    requires w.calls[k].act < |w.past.acts| && w.past.acts[w.calls[k].act].act.MergeAct?
    ensures Do(w, ReadTargetRaw(k)) == At(w, k, w.calls[k].(target := Some(RawIds(w, w.past.acts[w.calls[k].act].act.into))))
  {
  }

  lemma OwnReadDoes(w: World, k: CallId)
    requires k in w.calls && w.calls[k].TrailOwed? && w.calls[k].own.None? && w.calls[k].act < |w.past.acts|
    requires w.past.acts[w.calls[k].act].act.MergeAct? ==> w.calls[k].target.Some?
    ensures Do(w, ReadOwnRaw(k)) == At(w, k, w.calls[k].(own := Some(RawIds(w, w.past.acts[w.calls[k].act].decisionId))))
  {
  }

  lemma RecordDoes(w: World, k: CallId, recordId: string, now: int)
    requires k in w.calls && w.calls[k].TrailOwed? && w.calls[k].act < |w.past.acts| && w.calls[k].own.Some?
    ensures var u := Do(w, WriteTrail(k, recordId, now)); var c := w.calls[k]; var e := w.past.acts[c.act];
            && u.hash == w.hash && u.calls == w.calls - {k} && u.locks == w.locks && u.past.acts == w.past.acts
            && (if e.act == SelfDisposalAct("") then u.db == w.db && u.past.lost == w.past.lost[c.act := Uncited]
                else u.past.lost == w.past.lost
                     && u.db == w.db.(records := w.db.records + [Filed(Record(recordId, e, c.own.value + Default(c.target, []), now), c.act)]))
  {
  }

  /** What the record of an act that is no merge leaves. */
  ghost predicate OnRecord(w: World, u: World, k: CallId, recordId: string, now: int)
    requires k in w.calls && w.calls[k].TrailOwed? && w.calls[k].act < |w.past.acts|
  {
    var a := w.calls[k].act; var e := w.past.acts[a];
    && u.hash == w.hash && u.calls == w.calls - {k} && u.locks == w.locks && u.past.acts == w.past.acts
    && (if e.act == SelfDisposalAct("") then u.db == w.db && u.past.lost == w.past.lost[a := Uncited]
        else u.past.lost == w.past.lost && u.db == w.db.(records := w.db.records + [Filed(Record(recordId, e, RawIds(w, e.decisionId), now), a)]))
  }

  lemma RecordRun(w: World, k: CallId, recordId: string, now: int) returns (steps: seq<Step>)
    requires k in w.calls && w.calls[k].TrailOwed? && w.calls[k].act < |w.past.acts| && w.calls[k].own.None? && w.calls[k].target.None?
    requires !w.past.acts[w.calls[k].act].act.MergeAct?
    ensures Crashless(steps) && OnRecord(w, Run(w, steps), k, recordId, now)
  {
    hide Do, RawIds;
    steps := [ReadOwnRaw(k), WriteTrail(k, recordId, now)];
    RunTwo(w, steps[0], steps[1]);
    OwnReadDoes(w, k);
    var v := Do(w, steps[0]);
    RecordDoes(v, k, recordId, now);
    assert v.calls - {k} == w.calls - {k};
    assert RawIds(w, w.past.acts[w.calls[k].act].decisionId) + [] == RawIds(w, w.past.acts[w.calls[k].act].decisionId);
  }

  /* ------------------------------------------------------------------ a merge record that cites one capture */

  const A := "decision-1"
  const B := "decision-2"

  lemma FreshCanMerge(id: string, input: RaiseInput, now: int, into: string)
    ensures Allowed(Fresh(id, input, now), Merge(WHO, into, "duplicate"))
    ensures Transform(Fresh(id, input, now), Merge(WHO, into, "duplicate"), now).status == Merged
    ensures Transform(Fresh(id, input, now), Merge(WHO, into, "duplicate"), now).mergedInto == Some(into)
    ensures Owed(id, Merge(WHO, into, "duplicate"), None) == Some(Entry(id, MergeAct(into), WHO, "duplicate"))
  {
  }

  /** Two decisions, the second of them still without its capture. */
  ghost predicate TwoRaised(w: World) {
    && w.calls == map[1 := RawOwed(B, Capture("raw-2", Input("later"), 2))] && w.locks == map[] && w.past.acts == [] && w.past.lost == map[]
    && w.db.records == [] && w.db.raws == map[A := Capture("raw-1", Input("first"), 1)]
    && w.db.decisions == map[A := Versioned(Fresh(A, Input("first"), 1), 1), B := Versioned(Fresh(B, Input("later"), 2), 2)]
  }

  lemma RaisesTwo(hash: Hash) returns (steps: seq<Step>)
    ensures Crashless(steps) && TwoRaised(Reached(hash, steps))
  {
    hide Do, Fresh;
    var one := RaiseRun(Init(hash), 0, A, Input("first"), "raw-1", 1);
    var w := Reached(hash, one);
    var two := [Raise(1, B, Input("later"), "raw-2", 2)];
    assert Run(w, two) == Do(w, two[0]);
    Onto(hash, one, two);
    RaiseDoes(w, 1, B, Input("later"), "raw-2", 2);
    steps := one + two;
  }

  lemma MergesThem(w: World) returns (steps: seq<Step>)
    requires TwoRaised(w)
    ensures Crashless(steps) && var u := Run(w, steps);
            && u.calls == w.calls[2 := TrailOwed(0, None, None)] && u.past.acts == [Entry(A, MergeAct(B), WHO, "duplicate")] && u.past.lost == map[]
            && u.db.records == [] && u.db.raws == w.db.raws
            && A in u.db.decisions && u.db.decisions[A].row.status == Merged && u.db.decisions[A].row.mergedInto == Some(B)
  {
    hide Do, Allowed, Transform, Fresh, Owed;
    FreshCanMerge(A, Input("first"), 1, B);
    MergedAlike(Fresh(A, Input("first"), 1), 1, 3);
    steps := VerbRun(w, 2, A, Merge(WHO, B, "duplicate"), 3);
  }

  lemma MergedAlike(d: Decision, at: int, now: int)
    requires Allowed(d, Merge(WHO, B, "duplicate"))
    ensures var v := Merge(WHO, B, "duplicate"); Transform(d, v, now).status == Transform(d, v, at).status && Transform(d, v, now).mergedInto == Transform(d, v, at).mergedInto
  {
  }

  /** The merge has committed, and read the other decision's capture before it was stored. */
  ghost predicate ReadTooEarly(w: World) {
    && w.calls == map[1 := RawOwed(B, Capture("raw-2", Input("later"), 2)), 2 := TrailOwed(0, Some([]), None)]
    && w.past.acts == [Entry(A, MergeAct(B), WHO, "duplicate")] && w.past.lost == map[] && w.db.records == []
    && w.db.raws == map[A := Capture("raw-1", Input("first"), 1)]
    && A in w.db.decisions && w.db.decisions[A].row.status == Merged && w.db.decisions[A].row.mergedInto == Some(B)
  }

  lemma MergeReadsTooEarly(hash: Hash) returns (steps: seq<Step>)
    ensures Crashless(steps) && ReadTooEarly(Reached(hash, steps))
  {
    hide Do;
    var one := RaisesTwo(hash);
    var two := MergesThem(Reached(hash, one));
    Onto(hash, one, two);
    var w := Reached(hash, one + two);
    var three := [ReadTargetRaw(2)];
    RunOne(w, three[0]);
    Onto(hash, one + two, three);
    TargetReadDoes(w, 2);
    steps := one + two + three;
  }

  /** The merge in the end: recorded with one capture cited, though both are stored. */
  ghost predicate CitesOne(w: World) {
    && w.calls == map[] && w.past.lost == map[]
    && A in w.db.raws && B in w.db.raws && A in w.db.decisions && w.db.decisions[A].row.status == Merged && w.db.decisions[A].row.mergedInto == Some(B)
    && |w.db.records| == 1 && w.db.records[0].record.entry.act == MergeAct(B) && w.db.records[0].record.sourceRawIds == [w.db.raws[A].id]
  }

  /** The merge's record can be written before the capture of the decision merged into, and then cites one capture; in the
      end both captures are there, no call is left, and nobody crashed. */
  lemma AMergeRecordCanCiteOne(hash: Hash) returns (steps: seq<Step>)
    ensures Crashless(steps) && CitesOne(Reached(hash, steps))
  {
    hide Do;
    var one := MergeReadsTooEarly(hash);
    var w := Reached(hash, one);
    var two := [ReadOwnRaw(2), WriteTrail(2, "rec-1", 4), WriteRaw(1)];
    RunThree(w, two[0], two[1], two[2]);
    Onto(hash, one, two);
    OwnReadDoes(w, 2);
    var v := Do(w, two[0]);
    RecordDoes(v, 2, "rec-1", 4);
    CaptureDoes(Do(v, two[1]), 1);
    assert v.calls - {2} - {1} == map[];
    steps := one + two;
  }

  /** By the time it has read its own capture, the other one is stored as well. */
  ghost predicate BothStored(w: World) {
    && w.calls == map[2 := TrailOwed(0, Some([]), Some(["raw-1"]))]
    && w.past.acts == [Entry(A, MergeAct(B), WHO, "duplicate")] && w.past.lost == map[] && w.db.records == []
    && w.db.raws == map[A := Capture("raw-1", Input("first"), 1), B := Capture("raw-2", Input("later"), 2)]
    && A in w.db.decisions && w.db.decisions[A].row.status == Merged && w.db.decisions[A].row.mergedInto == Some(B)
  }

  lemma StoresBoth(hash: Hash) returns (steps: seq<Step>)
    ensures Crashless(steps) && BothStored(Reached(hash, steps))
  {
    hide Do;
    var one := MergeReadsTooEarly(hash);
    var w := Reached(hash, one);
    var two := [WriteRaw(1), ReadOwnRaw(2)];
    RunTwo(w, two[0], two[1]);
    Onto(hash, one, two);
    CaptureDoes(w, 1);
    OwnReadDoes(Do(w, two[0]), 2);
    steps := one + two;
  }

  /** It can also cite one although both captures are stored when it is written: the other decision's was stored after the
      merge had looked for it. */
  lemma AMergeRecordCanMissAStoredCapture(hash: Hash) returns (steps: seq<Step>, n: nat)
    ensures Crashless(steps) && CitesOne(Reached(hash, steps))
    ensures n < |steps| && steps[n].WriteTrail? && var v := Reached(hash, steps[..n]); A in v.db.raws && B in v.db.raws && v.db.records == []
  {
    hide Do;
    var one := StoresBoth(hash);
    var w := Reached(hash, one);
    var two := [WriteTrail(2, "rec-1", 4)];
    RunOne(w, two[0]);
    Onto(hash, one, two);
    RecordDoes(w, 2, "rec-1", 4);
    assert w.calls - {2} == map[];
    steps, n := one + two, |one|;
    assert steps[..n] == one && steps[n] == two[0];
  }

  /* ------------------------------------------------------------------ a self-disposal whose record is refused */

  const CURATION := Curate(WHO, None, None, "triage")
  const EMPTY_GRANT := RouteTo(WHO, SelfDisposal(Some("rule-5"), Some("")), [])

  lemma CurationOf(d: Decision, now: int)
    requires d.status == Raised && d.id == A && d.cls == Some("ops")
    ensures Allowed(d, CURATION) && var e := Transform(d, CURATION, now); e.status == Curated && e.cls == Some("ops") && e.id == A
    ensures Owed(A, CURATION, Some(d)) == Some(Entry(A, CurateAct(None), WHO, "triage"))
  {
  }

  lemma EmptyRouteOf(d: Decision, now: int)
    requires d.status == Curated && d.id == A && d.cls == Some("ops")
    ensures Allowed(d, EMPTY_GRANT) && var e := Transform(d, EMPTY_GRANT, now); e.status == Routed && RoutesItself(e)
    ensures Owed(A, EMPTY_GRANT, None).Some? && Owed(A, EMPTY_GRANT, None).value.act == SelfDisposalAct("")
  {
  }

  ghost predicate CuratedOnRecord(w: World) {
    && w.calls == map[] && |w.past.acts| == 1 && w.past.lost == map[] && |w.db.records| == 1 && w.db.records[0].record.entry.act == CurateAct(None)
    && A in w.db.decisions && var d := w.db.decisions[A].row; d.status == Curated && d.id == A && d.cls == Some("ops")
  }

  lemma CuratesOnRecord(hash: Hash) returns (steps: seq<Step>)
    ensures Crashless(steps) && CuratedOnRecord(Reached(hash, steps))
  {
    hide Do, Allowed, Transform, Owed;
    var one := RaiseRun(Init(hash), 0, A, Input("first"), "raw-1", 1);
    var w := Reached(hash, one);
    CurationOf(Fresh(A, Input("first"), 1), 2);
    var two := VerbRun(w, 0, A, CURATION, 2);
    Onto(hash, one, two);
    var u := Reached(hash, one + two);
    var three := RecordRun(u, 0, "rec-1", 3);
    Onto(hash, one + two, three);
    assert u.calls - {0} == map[];
    steps := one + two + three;
  }

  /** A self-disposal that cites a rule and gives the empty string for a grant is committed, and its record refused; no call
      is left, and nobody crashed. */
  lemma ASelfDisposalCanGoUncited(hash: Hash) returns (steps: seq<Step>)
    ensures var w := Reached(hash, steps);
            && Crashless(steps) && w.calls == map[] && A in w.db.decisions && w.db.decisions[A].row.status == Routed && RoutesItself(w.db.decisions[A].row)
            && |w.past.acts| == 2 && w.past.acts[1].act == SelfDisposalAct("") && w.past.lost == map[1 := Uncited]
            && forall i | 0 <= i < |w.db.records| :: !w.db.records[i].record.entry.act.SelfDisposalAct?
  {
    hide Do, Allowed, Transform, Owed;
    var one := CuratesOnRecord(hash);
    var w := Reached(hash, one);
    EmptyRouteOf(w.db.decisions[A].row, 4);
    var two := VerbRun(w, 0, A, EMPTY_GRANT, 4);
    Onto(hash, one, two);
    var u := Reached(hash, one + two);
    var three := RecordRun(u, 0, "rec-2", 5);
    Onto(hash, one + two, three);
    assert u.calls - {0} == map[];
    steps := one + two + three;
  }

  /* ------------------------------------------------------------------ a decision the Director ratifies */

  const TO_DIRECTOR := RouteTo(WHO, ToDirector, [])
  const UTTERANCE := Signal(None, "terminal", "yes", Actor("director-1", "director", None), 5)
  const SPEC := Spec("ops", ["unblock"], true, None, [], [], 90)

  function Request(id: string, sid: string): ResolveRequest {
    ResolveRequest(id, WHO, CustomAnswer("yes"), Some(sid), None)
  }

  function ByProxy(sid: string): Verb {
    Resolve(WHO, CustomAnswer("yes"), DirectorViaProxy, ProofRef(sid), None)
  }

  predicate IsSignalId(sid: string) {
    "dsig-" <= sid
  }

  lemma SignalIds(sid: string)
    requires IsSignalId(sid)
    ensures !("dconf-" <= sid) && !("grant-" <= sid) && sid != ""
  {
    assert sid[1] == 's' && sid[0] == 'd';
  }

  /** The proxy's call up to the loop. */
  lemma ProxyGated(w: World, k: CallId, id: string, sid: string) returns (steps: seq<Step>)
    requires k !in w.calls && id in w.db.decisions && w.db.decisions[id].row.status == Routed && w.db.decisions[id].row.plan == []
    requires sid in w.db.signals && IsSignalId(sid)
    ensures Crashless(steps) && Run(w, steps) == At(w, k, Ready(id, ByProxy(sid), Some(w.db.decisions[id].row)))
  {
    hide Do;
    var req := Request(id, sid);
    var one := [BeginResolve(k, req), Acquire(k)];
    var two := [ReadDecision(k), ReadProof(k, 6)];
    SignalIds(sid);
    RunTwo(w, one[0], one[1]);
    var a := Run(w, one);
    ProxyEnters(w, k, req);
    RunTwo(a, two[0], two[1]);
    RunAppend(w, one, two);
    ProxyReads(a, k, req, w.db.decisions[id].row);
    var c := Ready(id, ByProxy(sid), Some(w.db.decisions[id].row));
    assert w.calls[k := ResolveStart(req)][k := c] == w.calls[k := c];
    steps := one + two;
  }

  lemma ProxyEnters(w: World, k: CallId, req: ResolveRequest)
    requires k !in w.calls && !UnderGrant(req)
    ensures Do(Do(w, BeginResolve(k, req)), Acquire(k)) == At(w, k, ResolveStart(req))
  {
    var a := Do(w, BeginResolve(k, req));
    assert a.calls[k := ResolveStart(req)] == w.calls[k := ResolveStart(req)];
  }

  lemma ProxyReads(w: World, k: CallId, req: ResolveRequest, d: Decision)
    requires k in w.calls && w.calls[k] == ResolveStart(req) && req.id in w.db.decisions && w.db.decisions[req.id].row == d
    requires d.status == Routed && d.plan == [] && req.ref.Some? && req.ref.value in w.db.signals && IsSignalId(req.ref.value)
    ensures Do(Do(w, ReadDecision(k)), ReadProof(k, 6))
            == At(w, k, Ready(req.id, Resolve(req.executor, req.answer, DirectorViaProxy, ProofRef(req.ref.value), req.rationale), Some(d)))
  {
    SignalIds(req.ref.value);
    var a := Do(w, ReadDecision(k));
    assert a == At(w, k, ResolvePre(req, d));
    var c := Ready(req.id, Resolve(req.executor, req.answer, DirectorViaProxy, ProofRef(req.ref.value), req.rationale), Some(d));
    assert a.calls[k := c] == w.calls[k := c];
  }

  lemma ResolveLands(w: World, k: CallId, id: string, sid: string, before: Option<Decision>)
    requires k in w.calls && id in w.db.decisions && w.calls[k] == Loaded(id, ByProxy(sid), before, w.db.decisions[id], 7)
    requires w.db.decisions[id].row.status == Routed
    ensures var u := Do(w, Commit(k)); var next := Transform(w.db.decisions[id].row, ByProxy(sid), 7);
            && u.hash == w.hash && u.locks == w.locks && u.calls == w.calls - {k} && u.past.acts == w.past.acts
            && u.db == w.db.(rev := w.db.rev + 1, decisions := w.db.decisions[id := Versioned(next, w.db.rev + 1)])
  {
    hide GrantActive;
  }

  lemma ResolvedByProxy(d: Decision, sid: string)
    requires d.status == Routed
    ensures Allowed(d, ByProxy(sid)) && var e := Transform(d, ByProxy(sid), 7);
            && e.status == Phase.Resolved && e.context == d.context && e.resolution.Some? && e.resolution.value.mode == DirectorViaProxy
  {
  }

  /** Nothing goes on, and `id` is ratified in words that contain `context`. */
  ghost predicate Ratified(w: World, u: World, id: string, context: string) {
    && u.hash == w.hash && u.calls == map[] && u.locks == w.locks && u.db.grants == w.db.grants && u.db.ratifications == w.db.ratifications
    && id in u.db.decisions && u.db.decisions == w.db.decisions[id := u.db.decisions[id]]
    && var d := u.db.decisions[id].row; d.status == Phase.Resolved && d.context == context && d.resolution.Some? && d.resolution.value.mode == DirectorViaProxy
  }

  lemma RoutedOf(d: Decision, now: int)
    requires d.status == Raised
    ensures Allowed(d, CURATION) && var e := Transform(d, CURATION, 2);
            && Allowed(e, TO_DIRECTOR) && var f := Transform(e, TO_DIRECTOR, 4); f.status == Routed && f.plan == [] && f.context == d.context
    ensures Owed(d.id, CURATION, Some(d)) == Some(Entry(d.id, CurateAct(None), WHO, "triage")) && Owed(d.id, TO_DIRECTOR, None) == None
  {
  }

  ghost predicate RoutedToDirector(w: World, u: World, id: string, context: string) {
    && u.hash == w.hash && u.calls == map[] && u.locks == w.locks && u.db.grants == w.db.grants && u.db.ratifications == w.db.ratifications
    && u.db.signals == w.db.signals && id in u.db.decisions && u.db.decisions == w.db.decisions[id := u.db.decisions[id]]
    && var d := u.db.decisions[id].row; d.status == Routed && d.context == context && d.plan == []
  }

  lemma RouteRun(w: World, id: string, context: string) returns (steps: seq<Step>)
    requires w.calls == map[] && id !in w.db.decisions
    ensures Crashless(steps) && RoutedToDirector(w, Run(w, steps), id, context)
  {
    hide Do, Allowed, Transform, Owed;
    RoutedOf(Fresh(id, Input(context), 1), 2);
    var one := RaiseRun(w, 0, id, Input(context), "raw", 1);
    var a := Run(w, one);
    var two := VerbRun(a, 0, id, CURATION, 2);
    var b := Run(a, two);
    var three := RecordRun(b, 0, "rec", 3);
    var c := Run(b, three);
    assert b.calls - {0} == map[];
    var four := VerbRun(c, 0, id, TO_DIRECTOR, 4);
    assert c.calls - {0} == map[];
    RunAppend(w, one, two);
    RunAppend(w, one + two, three);
    RunAppend(w, one + two + three, four);
    steps := one + two + three + four;
  }

  lemma SignalDoes(w: World, k: CallId, sid: string)
    requires k !in w.calls && sid !in w.db.signals
    ensures Do(w, Step.MintSignal(k, sid, UTTERANCE)) == w.(db := w.db.(signals := w.db.signals[sid := UTTERANCE]))
  {
  }

  /** The proxy resolves a routed decision on a stored signal. */
  lemma ResolveRun(w: World, id: string, sid: string) returns (steps: seq<Step>)
    requires w.calls == map[] && id in w.db.decisions && w.db.decisions[id].row.status == Routed && w.db.decisions[id].row.plan == []
    requires sid in w.db.signals && IsSignalId(sid)
    ensures Crashless(steps) && Ratified(w, Run(w, steps), id, w.db.decisions[id].row.context) && Run(w, steps).db.signals == w.db.signals
  {
    hide Do, Allowed, Transform;
    var one := ProxyGated(w, 0, id, sid);
    var a := Run(w, one);
    ResolvedByProxy(w.db.decisions[id].row, sid);
    var two := [Load(0, 7), Commit(0)];
    RunTwo(a, two[0], two[1]);
    VerbLoads(a, 0, 7);
    ResolveLands(Do(a, two[0]), 0, id, sid, Some(w.db.decisions[id].row));
    assert Run(a, two).calls == map[];
    RunAppend(w, one, two);
    steps := one + two;
  }

  lemma RatifyRun(w: World, id: string, context: string, sid: string) returns (steps: seq<Step>)
    requires w.calls == map[] && id !in w.db.decisions && sid !in w.db.signals && IsSignalId(sid)
    ensures Crashless(steps) && Ratified(w, Run(w, steps), id, context) && Run(w, steps).db.signals == w.db.signals[sid := UTTERANCE]
  {
    hide Do;
    var one := RouteRun(w, id, context);
    var a := Run(w, one);
    var two := [Step.MintSignal(0, sid, UTTERANCE)];
    RunOne(a, two[0]);
    SignalDoes(a, 0, sid);
    var three := ResolveRun(Run(a, two), id, sid);
    RunAppend(w, one, two);
    RunAppend(w, one + two, three);
    steps := one + two + three;
  }

  /* ------------------------------------------------------------------ a mint whose supersede comes too late */

  function Mint(id: string, supersedes: Option<string>): MintRequest {
    MintRequest(SPEC, id, supersedes)
  }

  function SpecContext(hash: Hash): string {
    SPEC_MARKER + hash(Canonical(SPEC))
  }

  const OLD := "grant-1"
  const NEW := "grant-2"

  /** A mint's call up to the spending of its ratification. */
  lemma MintSpends(w: World, k: CallId, id: string, supersedes: Option<string>, gid: string, version: nat) returns (steps: seq<Step>)
    requires k !in w.calls && id in w.db.decisions && var d := w.db.decisions[id].row;
             d.status == Phase.Resolved && d.context == SpecContext(w.hash) && d.resolution.Some? && d.resolution.value.mode == DirectorViaProxy
    requires id !in w.db.ratifications && "grant-" <= gid
    requires if supersedes.None? then version == 1
             else supersedes.value != "" && supersedes.value in w.db.grants && version == w.db.grants[supersedes.value].row.version + 1
    ensures Crashless(steps) && var at := w.db.decisions[id].row.resolution.value.resolvedAt;
            Run(w, steps) == w.(calls := w.calls[k := MintConsumed(Mint(id, supersedes), at, version, gid)], db := w.db.(ratifications := w.db.ratifications[id := gid]))
  {
    hide Do;
    var m, at := Mint(id, supersedes), w.db.decisions[id].row.resolution.value.resolvedAt;
    steps := [BeginMint(k, m), ReadPrior(k), ConsumeRatification(k, gid)];
    RunThree(w, steps[0], steps[1], steps[2]);
    MintBegins(w, k, m);
    var a := Do(w, steps[0]);
    PriorReads(a, k, m, at, version);
    var b := Do(a, steps[1]);
    RatificationSpends(b, k, m, at, version, gid);
    var c := MintConsumed(m, at, version, gid);
    assert w.calls[k := MintRatified(m, at)][k := MintChecked(m, at, version)][k := c] == w.calls[k := c];
  }

  lemma MintBegins(w: World, k: CallId, m: MintRequest)
    requires k !in w.calls && m.spec == SPEC && m.ratificationRef in w.db.decisions && var d := w.db.decisions[m.ratificationRef].row;
             d.status == Phase.Resolved && d.context == SpecContext(w.hash) && d.resolution.Some? && d.resolution.value.mode == DirectorViaProxy
    ensures Do(w, BeginMint(k, m)) == At(w, k, MintRatified(m, w.db.decisions[m.ratificationRef].row.resolution.value.resolvedAt))
  {
    assert Occurs(SpecContext(w.hash), w.db.decisions[m.ratificationRef].row.context);
    assert BindsSpec(w.hash, w.db.decisions[m.ratificationRef].row.context, SPEC);
  }

  lemma PriorReads(w: World, k: CallId, m: MintRequest, at: int, version: nat)
    requires k in w.calls && w.calls[k] == MintRatified(m, at)
    requires if m.supersedes.None? then version == 1
             else m.supersedes.value != "" && m.supersedes.value in w.db.grants && version == w.db.grants[m.supersedes.value].row.version + 1
    ensures Do(w, ReadPrior(k)) == At(w, k, MintChecked(m, at, version))
  {
  }

  lemma RatificationSpends(w: World, k: CallId, m: MintRequest, at: int, version: nat, gid: string)
    requires k in w.calls && w.calls[k] == MintChecked(m, at, version) && "grant-" <= gid && m.ratificationRef !in w.db.ratifications
    ensures Do(w, ConsumeRatification(k, gid))
            == At(w.(db := w.db.(ratifications := w.db.ratifications[m.ratificationRef := gid])), k, MintConsumed(m, at, version, gid))
  {
  }

  lemma GrantWritten(w: World, k: CallId, m: MintRequest, at: int, version: nat, gid: string, now: int)
    requires k in w.calls && w.calls[k] == MintConsumed(m, at, version, gid) && gid !in w.db.grants && (m.supersedes.Some? ==> m.supersedes.value != "")
    ensures var u := Do(w, WriteGrant(k, now));
            && u.hash == w.hash && u.locks == w.locks
            && u.db == w.db.(rev := w.db.rev + 1, grants := w.db.grants[gid := Versioned(NewGrant(m, gid, version, at, now), w.db.rev + 1)])
            && u.calls == if m.supersedes.None? then w.calls - {k} else w.calls[k := GrantQueued(m.supersedes.value, MarkSuperseded(gid))]
  {
    hide NewGrant, GrantTransform, Transform, Allowed;
  }

  /** A revoke of an active grant that nobody holds, from beginning to end. */
  lemma RevokeRun(w: World, k: CallId, g: string, now: int) returns (steps: seq<Step>)
    requires k !in w.calls && g !in w.locks && g in w.db.grants && w.db.grants[g].row.state == Active
    ensures Crashless(steps) && var u := Run(w, steps); var op := Revoke("obsolete");
            && u.hash == w.hash && u.calls == w.calls && u.locks == w.locks
            && u.db == w.db.(rev := w.db.rev + 1, grants := w.db.grants[g := Versioned(GrantTransform(w.db.grants[g].row, op, now), w.db.rev + 1)])
  {
    hide Do;
    var op := Revoke("obsolete");
    var one := [BeginRevoke(k, g, "obsolete"), Acquire(k)];
    var two := [GrantLoad(k), GrantCommit(k, now)];
    RunTwo(w, one[0], one[1]);
    RevokeEnters(w, k, g);
    var a := Run(w, one);
    RunTwo(a, two[0], two[1]);
    GrantRetires(a, k, g, op, now);
    RunAppend(w, one, two);
    steps := one + two;
    assert a.calls - {k} == w.calls && a.locks - {g} == w.locks;
  }

  lemma RevokeEnters(w: World, k: CallId, g: string)
    requires k !in w.calls && g !in w.locks
    ensures Do(Do(w, BeginRevoke(k, g, "obsolete")), Acquire(k)) == w.(calls := w.calls[k := GrantReady(g, Revoke("obsolete"))], locks := w.locks[g := k])
  {
    hide Blank;
    ObsoleteIsAReason();
    var a := Do(w, BeginRevoke(k, g, "obsolete"));
    assert a.calls[k := GrantReady(g, Revoke("obsolete"))] == w.calls[k := GrantReady(g, Revoke("obsolete"))];
  }

  lemma ObsoleteIsAReason()
    ensures !Blank("obsolete")
  {
    assert 'o' in "obsolete" && !Space('o');
  }

  lemma GrantRetires(w: World, k: CallId, g: string, op: GrantOp, now: int)
    requires k in w.calls && w.calls[k] == GrantReady(g, op) && g in w.locks && w.locks[g] == k && g in w.db.grants && w.db.grants[g].row.state == Active
    ensures var u := Do(Do(w, GrantLoad(k)), GrantCommit(k, now));
            && u.hash == w.hash && u.calls == w.calls - {k} && u.locks == w.locks - {g}
            && u.db == w.db.(rev := w.db.rev + 1, grants := w.db.grants[g := Versioned(GrantTransform(w.db.grants[g].row, op, now), w.db.rev + 1)])
  {
    var a := Do(w, GrantLoad(k));
    assert a == At(w, k, GrantLoaded(g, op, w.db.grants[g]));
    assert a.calls - {k} == w.calls - {k};
  }

  lemma Enters(w: World, k: CallId, g: string, op: GrantOp)
    requires k in w.calls && w.calls[k] == GrantQueued(g, op) && g !in w.locks
    ensures Do(w, Acquire(k)) == w.(calls := w.calls[k := GrantReady(g, op)], locks := w.locks[g := k])
  {
  }

  lemma FindsRetired(w: World, k: CallId, g: string, op: GrantOp)
    requires k in w.calls && w.calls[k] == GrantReady(g, op) && g in w.locks && w.locks[g] == k && g in w.db.grants && w.db.grants[g].row.state != Active
    ensures Do(w, GrantLoad(k)) == w.(calls := w.calls - {k}, locks := w.locks - {g})
  {
  }

  /** A queued transition that finds the grant retired ends without a write. */
  lemma TooLate(w: World, k: CallId, g: string, op: GrantOp)
    requires k in w.calls && w.calls[k] == GrantQueued(g, op) && g !in w.locks && g in w.db.grants && w.db.grants[g].row.state != Active
    ensures var u := Run(w, [Acquire(k), GrantLoad(k)]); u.calls == w.calls - {k} && u.locks == w.locks && u.db == w.db
  {
    hide Do;
    RunTwo(w, Acquire(k), GrantLoad(k));
    var a := Do(w, Acquire(k));
    Enters(w, k, g, op);
    FindsRetired(a, k, g, op);
    assert a.calls - {k} == w.calls - {k} && a.locks - {g} == w.locks;
  }

  /** From any world in which a mint has written its row and is about to supersede an active grant that nobody holds,
      a revoke that gets to the barrier first leaves the new grant standing and the prior one not superseded. */
  lemma ARevokeCanComeFirst(w: World, k: CallId, j: CallId, g: string, gid: string, now: int) returns (steps: seq<Step>)
    requires k in w.calls && w.calls[k] == GrantQueued(g, MarkSuperseded(gid)) && j !in w.calls
    requires g !in w.locks && {g, gid} <= w.db.grants.Keys && g != gid && w.db.grants[g].row.state == Active
    ensures Crashless(steps) && var u := Run(w, steps);
            && u.calls == w.calls - {k} && u.locks == w.locks && u.db.grants.Keys == w.db.grants.Keys && u.db.grants[gid] == w.db.grants[gid]
            && u.db.grants[g].row.state == Revoked && u.db.grants[g].row.supersededBy == w.db.grants[g].row.supersededBy
  {
    hide Do;
    var one := RevokeRun(w, j, g, now);
    var two := [Acquire(k), GrantLoad(k)];
    TooLate(Run(w, one), k, g, MarkSuperseded(gid));
    RunAppend(w, one, two);
    steps := one + two;
  }

  ghost predicate TwoRatified(hash: Hash, w: World) {
    && w.hash == hash && w.calls == map[] && w.locks == map[] && w.db.grants == map[] && w.db.ratifications == map[] && {A, B} <= w.db.decisions.Keys
    && forall id | id in {A, B} :: var d := w.db.decisions[id].row;
         d.status == Phase.Resolved && d.context == SpecContext(hash) && d.resolution.Some? && d.resolution.value.mode == DirectorViaProxy
  }

  lemma RatifiesTwo(hash: Hash) returns (steps: seq<Step>)
    ensures Crashless(steps) && TwoRatified(hash, Reached(hash, steps))
  {
    hide Do;
    var one := RatifyRun(Init(hash), A, SpecContext(hash), "dsig-1");
    var two := RatifyRun(Reached(hash, one), B, SpecContext(hash), "dsig-2");
    Onto(hash, one, two);
    steps := one + two;
  }

  /** A grant is there, and a second mint has written its successor and is about to supersede it. */
  ghost predicate AboutToSupersede(w: World) {
    && w.calls == map[1 := GrantQueued(OLD, MarkSuperseded(NEW))] && w.locks == map[] && w.db.grants.Keys == {OLD, NEW}
    && w.db.grants[OLD].row.state == Active && w.db.grants[OLD].row.supersededBy == None
    && w.db.grants[NEW].row.state == Active && w.db.grants[NEW].row.supersedes == Some(OLD)
  }

  lemma MintsFirst(hash: Hash, w: World) returns (steps: seq<Step>)
    requires TwoRatified(hash, w)
    ensures Crashless(steps) && var u := Run(w, steps);
            && u.hash == hash && u.calls == map[] && u.locks == map[] && u.db.decisions == w.db.decisions && u.db.ratifications == map[A := OLD]
            && u.db.grants.Keys == {OLD} && var g := u.db.grants[OLD].row; g.state == Active && g.supersededBy == None && g.version == 1
  {
    hide Do;
    var one := MintSpends(w, 0, A, None, OLD, 1);
    var a := Run(w, one);
    var two := [WriteGrant(0, 8)];
    RunOne(a, two[0]);
    GrantWritten(a, 0, Mint(A, None), w.db.decisions[A].row.resolution.value.resolvedAt, 1, OLD, 8);
    assert a.calls - {0} == map[];
    RunAppend(w, one, two);
    steps := one + two;
  }

  lemma MintsSecond(hash: Hash, w: World) returns (steps: seq<Step>)
    requires TwoRatified(hash, w)
    ensures Crashless(steps) && AboutToSupersede(Run(w, steps))
  {
    hide Do;
    var one := MintsFirst(hash, w);
    var a := Run(w, one);
    var two := MintSpends(a, 1, B, Some(OLD), NEW, 2);
    var b := Run(a, two);
    var three := [WriteGrant(1, 9)];
    RunOne(b, three[0]);
    GrantWritten(b, 1, Mint(B, Some(OLD)), w.db.decisions[B].row.resolution.value.resolvedAt, 2, NEW, 9);
    RunAppend(w, one, two);
    RunAppend(w, one + two, three);
    steps := one + two + three;
  }

  /** So a mint can fail to supersede the prior grant although its own row is written: no call is left, nobody crashed, the
      new grant is active and names the prior one, and the prior one does not name it. */
  lemma AMintCanFailToSupersede(hash: Hash) returns (steps: seq<Step>)
    ensures var w := Reached(hash, steps);
            && Crashless(steps) && w.calls == map[] && w.locks == map[] && w.db.grants.Keys == {OLD, NEW}
            && w.db.grants[NEW].row.state == Active && w.db.grants[NEW].row.supersedes == Some(OLD)
            && w.db.grants[OLD].row.state == Revoked && w.db.grants[OLD].row.supersededBy == None
  {
    hide Do;
    var one := RatifiesTwo(hash);
    var two := MintsSecond(hash, Reached(hash, one));
    Onto(hash, one, two);
    var w := Reached(hash, one + two);
    var three := ARevokeCanComeFirst(w, 1, 2, OLD, NEW, 10);
    Onto(hash, one + two, three);
    assert w.calls - {1} == map[];
    steps := one + two + three;
  }
}
