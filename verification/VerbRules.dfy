/** The decision verbs' rules as a caller would put them, verb by verb: when a verb is refused, and what it puts on record. */
module VerbRules {
  import opened Substrate
  import opened Decisions
  import opened Rail

  /** Whom the row as it stands turns away. */
  predicate Refuses(d: Decision, v: Verb) {
    match v
    case Curate(_, _, _, _) => d.status != Raised
    case RouteTo(_, ToDirector, _) => d.status != Curated
    case RouteTo(_, SelfDisposal(rule, grant), _) =>
      d.status != Curated || d.cls == None || ((rule == None || rule == Some("")) && (grant == None || grant == Some("")))
    case Resolve(_, _, _, _, _) => d.status != Routed
    case MarkExecuted(_) => d.status != Phase.Resolved
    case BindExecutor(_) => d.status != Phase.Resolved
    case Merge(_, _, _) => d.status !in {Raised, Curated}
    case Dispose(_, _) => d.status !in {Raised, Curated, Routed}
    case Withdraw(caller) => d.status !in {Raised, Curated} || d.raisedBy.agentId != caller.agentId
  }

  lemma AllowedMeans(d: Decision, v: Verb)
    ensures Allowed(d, v) <==> !Refuses(d, v)
  {
  }

  /** What `trim` removes. */
  const TRIMMED := "\t\n\U{b}\U{c}\r \U{a0}\U{1680}\U{2000}\U{2001}\U{2002}\U{2003}\U{2004}\U{2005}\U{2006}\U{2007}\U{2008}\U{2009}\U{200a}\U{2028}\U{2029}\U{202f}\U{205f}\U{3000}\U{feff}"

  /** Whom the checks ahead of the row turn away: a merge into itself or into nothing, and a disposal without a reason. */
  predicate RefusesOutright(w: World, id: string, v: Verb) {
    || (v.Merge? && (v.into == id || v.into !in w.db.decisions))
    || (v.Dispose? && forall i | 0 <= i < |v.reason| :: v.reason[i] in TRIMMED)
  }

  lemma SpaceMeans(c: char)
    ensures Space(c) <==> c in TRIMMED
  {
    assert TRIMMED[0] == '\t' && TRIMMED[1] == '\n' && TRIMMED[2] == '\U{b}' && TRIMMED[3] == '\U{c}' && TRIMMED[4] == '\r' && TRIMMED[5] == ' ';
    assert TRIMMED[6] == '\U{a0}' && TRIMMED[7] == '\U{1680}' && TRIMMED[8] == '\U{2000}' && TRIMMED[9] == '\U{2001}' && TRIMMED[10] == '\U{2002}';
    assert TRIMMED[11] == '\U{2003}' && TRIMMED[12] == '\U{2004}' && TRIMMED[13] == '\U{2005}' && TRIMMED[14] == '\U{2006}' && TRIMMED[15] == '\U{2007}';
    assert TRIMMED[16] == '\U{2008}' && TRIMMED[17] == '\U{2009}' && TRIMMED[18] == '\U{200a}' && TRIMMED[19] == '\U{2028}' && TRIMMED[20] == '\U{2029}';
    assert TRIMMED[21] == '\U{202f}' && TRIMMED[22] == '\U{205f}' && TRIMMED[23] == '\U{3000}' && TRIMMED[24] == '\U{feff}' && |TRIMMED| == 25;
  }

  lemma BlankMeans(s: string)
    ensures Blank(s) <==> forall i | 0 <= i < |s| :: s[i] in TRIMMED
  {
    hide Space;
    forall c: char ensures Space(c) <==> c in TRIMMED { SpaceMeans(c); }
    forall i | 0 <= i < |s| ensures s[i] in s {}
  }

  /** Whether a committed verb puts something on record, and if so by whom, why and what of. */
  predicate IsRecorded(v: Verb, before: Option<Decision>) {
    match v
    case Curate(_, _, _, _) => before.Some?
    case RouteTo(_, SelfDisposal(rule, grant), _) => grant != Some("") && (grant.Some? || (rule != None && rule != Some("")))
    case Merge(_, _, _) => true
    case Dispose(_, _) => true
    case _ => false
  }

  predicate Records(e: Entry, id: string, v: Verb, before: Option<Decision>) {
    e.decisionId == id &&
    match v
    case Curate(curator, _, cls, basis) =>
      && e.curator == curator && e.basis == basis && e.act.CurateAct?
      && (before.Some? && cls.Some? && cls != before.value.cls ==> e.act.change == Some(ClassChange(before.value.cls, cls.value)))
      && (before.None? || cls.None? || cls == before.value.cls ==> e.act.change == None)
    case RouteTo(router, SelfDisposal(rule, grant), _) =>
      && e.curator == router && e.basis == "routed for self-disposal under cited authority" && e.act.SelfDisposalAct?
      && (if grant.Some? then e.act.citation == grant.value else rule.Some? ==> e.act.citation == rule.value)
    case Merge(curator, into, basis) => e.curator == curator && e.basis == basis && e.act == MergeAct(into)
    case Dispose(curator, reason) => e.curator == curator && e.basis == reason && e.act == DisposeAct
    case _ => false
  }

  lemma OwedMeans(id: string, v: Verb, before: Option<Decision>)
    ensures var o := Owed(id, v, before);
            && (o.Some? ==> Records(o.value, id, v, before))
            && (IsRecorded(v, before) <==> o.Some? && !(v.Curate? && before.None?) && o.value.act != SelfDisposalAct(""))
  {
  }

  /** What a record cites: the capture of its own decision if that was stored when it was read, and, for a merge, then that of the
      decision merged into, which was read first. */
  predicate Sources(ids: seq<string>, e: Entry, first: World, second: World) {
    var own := if e.decisionId in second.db.raws then [second.db.raws[e.decisionId].id] else [];
    match e.act
    case MergeAct(into) => ids == own + if into in first.db.raws then [first.db.raws[into].id] else []
    case _ => ids == own
  }
}
