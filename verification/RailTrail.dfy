/** The curation trail: what the append-only captures and records say about the decisions, over every run. */
module RailTrail {
  import opened Substrate
  import opened Decisions
  import opened DirectorProof
  import opened Rail
  import opened RailSafety
  import opened RailTheorems

  /* ------------------------------------------------------------------ acts and decisions */

  predicate SameKind(a: Act, b: Act) {
    a.CurateAct? == b.CurateAct? && a.MergeAct? == b.MergeAct? && a.DisposeAct? == b.DisposeAct?
  }

  predicate SameAct(e: Entry, f: Entry) {
    e.decisionId == f.decisionId && SameKind(e.act, f.act)
  }

  predicate RoutesItself(d: Decision) {
    d.routedTo.Some? && d.routedTo.value.SelfDisposal?
  }

  /** What a self-disposal record cites: the grant if the route names one, else the rule. */
  function Citation(r: Route): string
    requires r.SelfDisposal?
  {
    if r.classGrantRef.Some? then r.classGrantRef.value else if r.t5RuleRef.Some? then r.t5RuleRef.value else ""
  }

  /** The decision shows that the act was done to it. */
  predicate Bears(d: Decision, a: Act) {
    match a
    case CurateAct(_) => d.status != Raised
    case MergeAct(into) => d.mergedInto == Some(into) && d.status == Merged
    case DisposeAct => d.status == Disposed
    case SelfDisposalAct(citation) => d.status !in {Raised, Curated} && RoutesItself(d) && citation == Citation(d.routedTo.value)
  }

  ghost predicate Curates(acts: seq<Entry>, id: string) {
    exists a :: 0 <= a < |acts| && acts[a].decisionId == id && acts[a].act.CurateAct?
  }

  ghost predicate Merges(acts: seq<Entry>, id: string) {
    exists a :: 0 <= a < |acts| && acts[a].decisionId == id && acts[a].act.MergeAct?
  }

  ghost predicate Disposes(acts: seq<Entry>, id: string) {
    exists a :: 0 <= a < |acts| && acts[a].decisionId == id && acts[a].act.DisposeAct?
  }

  ghost predicate RoutesOut(acts: seq<Entry>, id: string) {
    exists a :: 0 <= a < |acts| && acts[a].decisionId == id && acts[a].act.SelfDisposalAct?
  }

  /** Nothing was done to the decision that the history of acts does not hold. */
  ghost predicate Covered(d: Decision, acts: seq<Entry>) {
    && (d.status in {Curated, Routed, Phase.Resolved, Executed} ==> Curates(acts, d.id))
    && (d.status == Merged ==> Merges(acts, d.id))
    && (d.status == Disposed ==> Disposes(acts, d.id))
    && (RoutesItself(d) ==> RoutesOut(acts, d.id))
  }

  ghost predicate ActOk(decisions: Table<Decision>, e: Entry) {
    e.decisionId in decisions && Bears(decisions[e.decisionId].row, e.act) && (e.act.MergeAct? ==> e.act.into in decisions)
  }

  ghost predicate RowCovered(decisions: Table<Decision>, acts: seq<Entry>, id: string) {
    id in decisions && decisions[id].row.id == id && Covered(decisions[id].row, acts)
  }

  /** Acts and decision rows tell one story. */
  ghost predicate ActsOk(decisions: Table<Decision>, acts: seq<Entry>) {
    && (forall a {:trigger ActOk(decisions, acts[a])} | 0 <= a < |acts| :: ActOk(decisions, acts[a]))
    && (forall a, b {:trigger acts[a], acts[b]} | 0 <= a < b < |acts| :: !SameAct(acts[a], acts[b]))
    && (forall id {:trigger RowCovered(decisions, acts, id)} | id in decisions :: RowCovered(decisions, acts, id))
  }

  /** The entry a verb owes says what the verb does to the row, and nothing of the kind was done before. */
  lemma OwedBears(d: Decision, v: Verb, before: Option<Decision>, now: int)
    requires Allowed(d, v)
    ensures var e := Transform(d, v, now); var o := Owed(d.id, v, before);
            && (o.Some? ==> o.value.decisionId == d.id && Bears(e, o.value.act) && forall a: Act | SameKind(a, o.value.act) :: !Bears(d, a))
            && (o.Some? && o.value.act.MergeAct? ==> v.Merge? && o.value.act.into == v.into)
  {
  }

  lemma OwedKinds(d: Decision, v: Verb, before: Option<Decision>, now: int)
    requires Allowed(d, v)
    ensures var e := Transform(d, v, now); var o := Owed(d.id, v, before);
            && (e.status == Curated && d.status != Curated ==> o.Some? && o.value.act.CurateAct?)
            && (e.status == Merged && d.status != Merged ==> o.Some? && o.value.act.MergeAct?)
            && (e.status == Disposed && d.status != Disposed ==> o.Some? && o.value.act.DisposeAct?)
            && (RoutesItself(e) && !RoutesItself(d) ==> o.Some? && o.value.act.SelfDisposalAct?)
            && (e.status in {Routed, Phase.Resolved, Executed} ==> d.status in {Curated, Routed, Phase.Resolved, Executed})
            && e.id == d.id
  {
  }

  /** What a row bears it goes on bearing. */
  lemma BearsOn(d: Decision, v: Verb, now: int, a: Act)
    requires Allowed(d, v) && Bears(d, a)
    ensures Bears(Transform(d, v, now), a)
  {
  }

  function Noted(acts: seq<Entry>, o: Option<Entry>): seq<Entry> {
    if o.Some? then acts + [o.value] else acts
  }

  lemma NotedKeeps(acts: seq<Entry>, o: Option<Entry>, id: string)
    ensures Curates(acts, id) ==> Curates(Noted(acts, o), id)
    ensures Merges(acts, id) ==> Merges(Noted(acts, o), id)
    ensures Disposes(acts, id) ==> Disposes(Noted(acts, o), id)
    ensures RoutesOut(acts, id) ==> RoutesOut(Noted(acts, o), id)
    ensures o.Some? && o.value.decisionId == id ==>
              && (o.value.act.CurateAct? ==> Curates(Noted(acts, o), id)) && (o.value.act.MergeAct? ==> Merges(Noted(acts, o), id))
              && (o.value.act.DisposeAct? ==> Disposes(Noted(acts, o), id)) && (o.value.act.SelfDisposalAct? ==> RoutesOut(Noted(acts, o), id))
  {
    var acts' := Noted(acts, o);
    assert forall a | 0 <= a < |acts| :: acts'[a] == acts[a];
    assert o.Some? ==> acts'[|acts|] == o.value;
  }

  lemma CommitCovered(d: Decision, v: Verb, before: Option<Decision>, now: int, acts: seq<Entry>)
    requires Allowed(d, v) && Covered(d, acts)
    ensures Covered(Transform(d, v, now), Noted(acts, Owed(d.id, v, before)))
  {
    hide Transform, Owed, Allowed, Curates, Merges, Disposes, RoutesOut, Noted, RoutesItself;
    OwedKinds(d, v, before, now);
    OwedBears(d, v, before, now);
    NotedKeeps(acts, Owed(d.id, v, before), d.id);
    CoveredKept(d, v, now, acts);
  }

  lemma CoveredKept(d: Decision, v: Verb, now: int, acts: seq<Entry>)
    requires Allowed(d, v)
    ensures var e := Transform(d, v, now);
            && e.id == d.id && (d.status in {Merged, Disposed} ==> e.status == d.status) && (d.status == Curated && e.status == Curated ==> e == d)
  {
  }

  lemma ActsCommitted(decisions: Table<Decision>, acts: seq<Entry>, id: string, v: Verb, before: Option<Decision>, now: int, next: Versioned<Decision>)
    requires ActsOk(decisions, acts) && id in decisions && Allowed(decisions[id].row, v) && next.row == Transform(decisions[id].row, v, now)
    requires v.Merge? ==> v.into in decisions
    ensures ActsOk(decisions[id := next], Noted(acts, Owed(id, v, before)))
  {
    hide Transform, Owed, Allowed, Bears, Covered;
    var d := decisions[id].row;
    var decisions', o := decisions[id := next], Owed(id, v, before);
    var acts' := Noted(acts, o);
    assert RowCovered(decisions, acts, id);
    OwedBears(d, v, before, now);
    OwedKinds(d, v, before, now);
    forall a | 0 <= a < |acts'| ensures ActOk(decisions', acts'[a]) {
      if a < |acts| {
        assert ActOk(decisions, acts[a]);
        if acts[a].decisionId == id { BearsOn(d, v, now, acts[a].act); }
      }
    }
    forall a, b | 0 <= a < b < |acts'| ensures !SameAct(acts'[a], acts'[b]) {
      if b == |acts| { assert ActOk(decisions, acts[a]); }
    }
    forall j | j in decisions' ensures RowCovered(decisions', acts', j) {
      assert RowCovered(decisions, acts, j);
      if j == id { CommitCovered(d, v, before, now, acts); } else { NotedCovers(decisions[j].row, acts, o); }
    }
  }

  lemma NotedCovers(d: Decision, acts: seq<Entry>, o: Option<Entry>)
    requires Covered(d, acts)
    ensures Covered(d, Noted(acts, o))
  {
    NotedKeeps(acts, o, d.id);
  }

  /* ------------------------------------------------------------------ captures and the class */

  /** The one change of class a curation may have made. */
  function Difference(before: Option<string>, after: Option<string>): Option<ClassChange> {
    if after.Some? && after != before then Some(ClassChange(before, after.value)) else None
  }

  /** The capture holds what was raised, and the curate act on it accounts for the class since. */
  ghost predicate CaptureOk(d: Decision, acts: seq<Entry>, lost: map<nat, Loss>, raw: Raw) {
    && raw.title == d.title && raw.context == d.context && raw.options == d.options && raw.contextRefs == d.contextRefs
    && raw.raisedBy == d.raisedBy && raw.raisedAt == d.createdAt
    && (d.cls.None? ==> raw.cls.None?)
    && (d.status == Raised ==> d.cls == raw.cls)
    && (!Curates(acts, d.id) ==> d.cls == raw.cls)
    && (forall a {:trigger acts[a]} | 0 <= a < |acts| && acts[a].decisionId == d.id && acts[a].act.CurateAct? && !(a in lost && lost[a] == NothingRead) ::
          acts[a].act.change == Difference(raw.cls, d.cls))
  }

  ghost predicate CapturedRow(w: World, id: string) {
    id in w.db.raws && id in w.db.decisions && CaptureOk(w.db.decisions[id].row, w.past.acts, w.past.lost, w.db.raws[id])
  }

  ghost predicate OwedCapture(w: World, k: CallId) {
    k in w.calls && w.calls[k].RawOwed? && w.calls[k].id !in w.db.raws && w.calls[k].id in w.db.decisions
    && CaptureOk(w.db.decisions[w.calls[k].id].row, w.past.acts, w.past.lost, w.calls[k].raw)
  }

  ghost predicate CapturesOk(w: World) {
    match w case World(_, db, _, calls, _) =>
      && (forall id {:trigger CapturedRow(w, id)} | id in db.raws :: CapturedRow(w, id))
      && (forall k {:trigger OwedCapture(w, k)} | k in calls && calls[k].RawOwed? :: OwedCapture(w, k))
      && (forall j, k {:trigger calls[j], calls[k]} | j in calls && k in calls && calls[j].RawOwed? && calls[k].RawOwed? && j != k :: calls[j].id != calls[k].id)
  }

  lemma CommitKeepsCapture(d: Decision, v: Verb, before: Option<Decision>, now: int, acts: seq<Entry>, lost: map<nat, Loss>, raw: Raw)
    requires Allowed(d, v) && CaptureOk(d, acts, lost, raw)
    requires before.Some? && v.Curate? ==> Grows(before.value, d)
    requires forall a | a in lost :: a < |acts|
    requires forall a | 0 <= a < |acts| && acts[a].decisionId == d.id :: Bears(d, acts[a].act)
    ensures var o := Owed(d.id, v, before);
            CaptureOk(Transform(d, v, now), Noted(acts, o), if v.Curate? && before.None? then lost[|acts| := NothingRead] else lost, raw)
  {
    var e, o := Transform(d, v, now), Owed(d.id, v, before);
    NotedKeeps(acts, o, d.id);
    if v.Curate? {
      assert forall a | 0 <= a < |acts| :: acts[a].decisionId == d.id ==> !acts[a].act.CurateAct?;
      assert d.cls == raw.cls;
    }
  }

  /** Acts on other decisions do not matter to a capture. */
  lemma OthersKeepCapture(d: Decision, acts: seq<Entry>, lost: map<nat, Loss>, raw: Raw, o: Option<Entry>, lost': map<nat, Loss>)
    requires CaptureOk(d, acts, lost, raw) && (o.Some? ==> o.value.decisionId != d.id)
    requires forall a | 0 <= a < |acts| && a in lost && lost[a] == NothingRead :: a in lost' && lost'[a] == NothingRead
    ensures CaptureOk(d, Noted(acts, o), lost', raw)
  {
    NotedKeeps(acts, o, d.id);
  }

  /* ------------------------------------------------------------------ the ledger of owed records */

  /** The call has yet to write the record of act `a`, whatever it has read for it. */
  predicate OwesRecord(c: Call, a: nat) {
    c.TrailOwed? && c.act == a
  }

  ghost predicate Owing(calls: map<CallId, Call>, a: nat) {
    exists k :: k in calls && OwesRecord(calls[k], a)
  }

  ghost predicate Recorded(records: seq<Filed>, a: nat) {
    exists i :: 0 <= i < |records| && records[i].act == a
  }

  /** A record is of its act, and never without a citation where one is required. */
  ghost predicate RecordOk(acts: seq<Entry>, lost: map<nat, Loss>, f: Filed) {
    && f.act < |acts| && f.record.entry == acts[f.act] && f.act !in lost
    && (f.record.entry.act.SelfDisposalAct? ==> f.record.entry.act.citation != "")
  }

  ghost predicate LossOk(acts: seq<Entry>, lost: map<nat, Loss>, a: nat) {
    a in lost && a < |acts|
    && (lost[a] == NothingRead ==> acts[a].act == CurateAct(None))
    && (lost[a] == Uncited ==> acts[a].act == SelfDisposalAct(""))
  }

  ghost predicate Accounted(w: World, a: nat) {
    Recorded(w.db.records, a) || a in w.past.lost || Owing(w.calls, a)
  }

  ghost predicate OwedOk(w: World, k: CallId) {
    k in w.calls && w.calls[k].TrailOwed? && w.calls[k].act < |w.past.acts| && w.calls[k].act !in w.past.lost
    && !Recorded(w.db.records, w.calls[k].act)
  }

  /** Each act is recorded, lost or still owed, and only one of these. */
  ghost predicate LedgerOk(w: World) {
    match w case World(_, db, _, calls, past) =>
      && (forall a: nat {:trigger Accounted(w, a)} | a < |past.acts| :: Accounted(w, a))
      && (forall i {:trigger RecordOk(past.acts, past.lost, db.records[i])} | 0 <= i < |db.records| :: RecordOk(past.acts, past.lost, db.records[i]))
      && (forall i, j {:trigger db.records[i], db.records[j]} | 0 <= i < j < |db.records| :: db.records[i].act != db.records[j].act)
      && (forall k {:trigger OwedOk(w, k)} | k in calls && calls[k].TrailOwed? :: OwedOk(w, k))
      && (forall j, k {:trigger calls[j], calls[k]} | j in calls && k in calls && calls[j].TrailOwed? && calls[k].TrailOwed? && j != k :: calls[j].act != calls[k].act)
      && (forall a {:trigger LossOk(past.acts, past.lost, a)} | a in past.lost :: LossOk(past.acts, past.lost, a))
  }

  ghost predicate TrailOk(w: World) {
    match w case World(_, db, _, _, past) => ActsOk(db.decisions, past.acts) && CapturesOk(w) && LedgerOk(w)
  }

  /* ------------------------------------------------------------------ every step keeps the trail */

  predicate Owes(c: Call) {
    c.RawOwed? || c.TrailOwed?
  }

  /** The calls that owe a capture or a record are the same ones, except perhaps call `k`. */
  ghost predicate SameDebts(w: World, w': World, k: CallId) {
    forall j {:trigger j in w'.calls} {:trigger j in w.calls} | j != k ::
      && (j in w.calls && Owes(w.calls[j]) ==> j in w'.calls && w'.calls[j] == w.calls[j])
      && (j in w'.calls && Owes(w'.calls[j]) ==> j in w.calls && w'.calls[j] == w.calls[j])
  }

  ghost predicate SameTrail(w: World, w': World, k: CallId) {
    && w'.db.decisions == w.db.decisions && w'.db.raws == w.db.raws && w'.db.records == w.db.records
    && w'.past.acts == w.past.acts && w'.past.lost == w.past.lost
    && SameDebts(w, w', k) && (k in w.calls ==> !Owes(w.calls[k]) || w'.calls == w.calls) && (k in w'.calls ==> !Owes(w'.calls[k]) || w'.calls == w.calls)
  }

  lemma SameTrailOwing(w: World, w': World, k: CallId, a: nat)
    requires SameTrail(w, w', k) && Accounted(w, a)
    ensures Accounted(w', a)
  {
    if Owing(w.calls, a) {
      var j :| j in w.calls && OwesRecord(w.calls[j], a);
      assert j in w'.calls && OwesRecord(w'.calls[j], a);
    }
  }

  lemma SameTrailCaptures(w: World, w': World, k: CallId)
    requires SameTrail(w, w', k) && CapturesOk(w)
    ensures CapturesOk(w')
  {
    hide CaptureOk;
    forall id | id in w'.db.raws ensures CapturedRow(w', id) { assert CapturedRow(w, id); }
    forall j | j in w'.calls && w'.calls[j].RawOwed? ensures OwedCapture(w', j) { assert OwedCapture(w, j); }
  }

  lemma SameTrailLedger(w: World, w': World, k: CallId)
    requires SameTrail(w, w', k) && LedgerOk(w)
    ensures LedgerOk(w')
  {
    hide Accounted, RecordOk, LossOk;
    forall a: nat | a < |w'.past.acts| ensures Accounted(w', a) { SameTrailOwing(w, w', k, a); }
    forall j | j in w'.calls && w'.calls[j].TrailOwed? ensures OwedOk(w', j) { assert OwedOk(w, j); }
    assert w'.past.lost == w.past.lost;
  }

  lemma SidelongTrail(w: World, w': World, k: CallId)
    requires Aside(w, w', k)
    ensures SameTrail(w, w', k)
  {
    if w' != w {
      forall j | j != k ensures (j in w.calls <==> j in w'.calls) && (j in w.calls ==> w.calls[j] == w'.calls[j]) {
        assert j in w.calls <==> j in w.calls - {k};
        assert j in w'.calls <==> j in w'.calls - {k};
        assert j in w.calls ==> (w.calls - {k})[j] == (w'.calls - {k})[j];
      }
    }
  }

  lemma LoadTrail(w: World, s: Step)
    requires s.Load?
    ensures SameTrail(w, Do(w, s), s.k)
  {
  }

  lemma SameTrailOk(w: World, w': World, k: CallId)
    requires SameTrail(w, w', k) && TrailOk(w)
    ensures TrailOk(w')
  {
    hide SameTrail, CapturesOk, LedgerOk, ActsOk;
    SameTrailCaptures(w, w', k);
    SameTrailLedger(w, w', k);
    assert w'.db.decisions == w.db.decisions && w'.past.acts == w.past.acts by { SameTrailRows(w, w', k); }
  }

  lemma SameTrailRows(w: World, w': World, k: CallId)
    requires SameTrail(w, w', k)
    ensures w'.db.decisions == w.db.decisions && w'.past.acts == w.past.acts
  {
  }

  lemma RaiseActs(decisions: Table<Decision>, acts: seq<Entry>, id: string, d: Versioned<Decision>)
    requires ActsOk(decisions, acts) && id !in decisions && d.row.id == id && d.row.status == Raised && d.row.routedTo == None
    ensures ActsOk(decisions[id := d], acts) && forall a | 0 <= a < |acts| :: acts[a].decisionId != id
  {
    hide Covered;
    var decisions' := decisions[id := d];
    forall a | 0 <= a < |acts| ensures ActOk(decisions', acts[a]) && acts[a].decisionId != id { assert ActOk(decisions, acts[a]); }
    forall j | j in decisions' ensures RowCovered(decisions', acts, j) {
      if j == id { RaisedCovered(d.row, acts); } else { assert RowCovered(decisions, acts, j); }
    }
  }

  lemma RaisedCovered(d: Decision, acts: seq<Entry>)
    requires d.status == Raised && d.routedTo == None
    ensures Covered(d, acts)
  {
  }

  lemma RaiseCaptures(w: World, k: CallId, id: string, input: RaiseInput, rawId: string, now: int)
    requires CapturesOk(w) && k !in w.calls && id !in w.db.decisions && forall a | 0 <= a < |w.past.acts| :: w.past.acts[a].decisionId != id
    ensures CapturesOk(DoRaise(w, k, id, input, rawId, now))
  {
    var w' := DoRaise(w, k, id, input, rawId, now);
    assert id !in w.db.raws by { assert id in w.db.raws ==> CapturedRow(w, id); }
    assert CaptureOk(w'.db.decisions[id].row, w'.past.acts, w'.past.lost, w'.calls[k].raw);
    RaiseOtherCaptures(w, w', k, id);
  }

  lemma RaiseOtherCaptures(w: World, w': World, k: CallId, id: string)
    requires CapturesOk(w) && k !in w.calls && k in w'.calls && w'.calls[k].RawOwed? && w'.calls[k].id == id && id !in w.db.decisions && id in w'.db.decisions
    requires w'.db.decisions == w.db.decisions[id := w'.db.decisions[id]] && w'.calls == w.calls[k := w'.calls[k]]
    requires w'.db.raws == w.db.raws && w'.past.acts == w.past.acts && w'.past.lost == w.past.lost && id !in w.db.raws
    requires CaptureOk(w'.db.decisions[id].row, w'.past.acts, w'.past.lost, w'.calls[k].raw)
    ensures CapturesOk(w')
  {
    hide CaptureOk;
    forall j | j in w'.db.raws ensures CapturedRow(w', j) { assert CapturedRow(w, j); }
    forall j | j in w'.calls && w'.calls[j].RawOwed? ensures OwedCapture(w', j) && (j != k ==> w'.calls[j].id != id) {
      if j != k { assert OwedCapture(w, j); }
    }
  }

  /** The ledger looks at records, acts, losses and owing calls only. */
  lemma SameLedger(w: World, w': World, k: CallId)
    requires LedgerOk(w) && w'.db.records == w.db.records && w'.past.acts == w.past.acts && w'.past.lost == w.past.lost && SameDebts(w, w', k)
    requires (k in w.calls ==> !w.calls[k].TrailOwed?) && (k in w'.calls ==> !w'.calls[k].TrailOwed?)
    requires forall id | id in w.db.raws :: id in w'.db.raws && w'.db.raws[id] == w.db.raws[id]
    ensures LedgerOk(w')
  {
    hide LossOk;
    forall a: nat | a < |w'.past.acts| ensures Accounted(w', a) {
      assert Accounted(w, a);
      if Owing(w.calls, a) {
        var j :| j in w.calls && OwesRecord(w.calls[j], a);
        assert j in w'.calls && OwesRecord(w'.calls[j], a);
      }
    }
    forall i | 0 <= i < |w'.db.records| ensures RecordOk(w'.past.acts, w'.past.lost, w'.db.records[i]) {
      assert RecordOk(w.past.acts, w.past.lost, w.db.records[i]);
    }
    forall j | j in w'.calls && w'.calls[j].TrailOwed? ensures OwedOk(w', j) { assert OwedOk(w, j); }
    assert w'.past.lost == w.past.lost;
  }

  lemma RaiseTrail(w: World, k: CallId, id: string, input: RaiseInput, rawId: string, now: int)
    requires TrailOk(w) && k !in w.calls && id !in w.db.decisions
    ensures TrailOk(DoRaise(w, k, id, input, rawId, now))
  {
    hide ActsOk, CapturesOk, LedgerOk;
    var w' := DoRaise(w, k, id, input, rawId, now);
    RaiseActs(w.db.decisions, w.past.acts, id, w'.db.decisions[id]);
    RaiseCaptures(w, k, id, input, rawId, now);
    SameLedger(w, w', k);
  }

  lemma WriteRawTrail(w: World, k: CallId)
    requires TrailOk(w) && k in w.calls && w.calls[k].RawOwed?
    ensures TrailOk(DoWriteRaw(w, k))
  {
    hide ActsOk, LedgerOk, CaptureOk;
    var w' := DoWriteRaw(w, k);
    var c := w.calls[k];
    assert OwedCapture(w, k);
    forall j | j in w'.db.raws ensures CapturedRow(w', j) { assert j != c.id ==> CapturedRow(w, j); }
    forall j | j in w'.calls && w'.calls[j].RawOwed? ensures OwedCapture(w', j) { assert OwedCapture(w, j) && w.calls[j].id != c.id; }
    SameLedger(w, w', k);
  }

  /** A call that owed nothing, or only a capture, is gone. */
  lemma DropTrail(w: World, w': World, k: CallId)
    requires TrailOk(w) && w'.db == w.db && w'.past.acts == w.past.acts && w'.past.lost == w.past.lost && w'.calls == w.calls - {k} && (k in w.calls ==> !w.calls[k].TrailOwed?)
    ensures TrailOk(w')
  {
    hide ActsOk, LedgerOk, CaptureOk;
    forall j | j in w'.db.raws ensures CapturedRow(w', j) { assert CapturedRow(w, j); }
    forall j | j in w'.calls && w'.calls[j].RawOwed? ensures OwedCapture(w', j) { assert OwedCapture(w, j); }
    SameLedger(w, w', k);
  }

  /** More losses that are not for want of a pre-read leave the captures as they were. */
  lemma LossKeepsCaptures(w: World, w': World, k: CallId, a: nat, why: Loss)
    requires CapturesOk(w) && w'.db.decisions == w.db.decisions && w'.db.raws == w.db.raws && w'.past.acts == w.past.acts
    requires w'.past.lost == w.past.lost || (w'.past.lost == w.past.lost[a := why] && a !in w.past.lost && why != NothingRead)
    requires w'.calls == w.calls - {k} && k in w.calls && !w.calls[k].RawOwed?
    ensures CapturesOk(w')
  {
    forall j | j in w'.db.raws ensures CapturedRow(w', j) {
      assert CapturedRow(w, j);
      OthersKeepCapture(w.db.decisions[j].row, w.past.acts, w.past.lost, w.db.raws[j], None, w'.past.lost);
    }
    forall j | j in w'.calls && w'.calls[j].RawOwed? ensures OwedCapture(w', j) {
      assert OwedCapture(w, j);
      OthersKeepCapture(w.db.decisions[w.calls[j].id].row, w.past.acts, w.past.lost, w.calls[j].raw, None, w'.past.lost);
    }
  }

  /** An owing call ends: its record is filed, or the act is put down as lost. */
  lemma PaidLedger(w: World, w': World, k: CallId, more: seq<Filed>, lost: map<nat, Loss>)
    requires LedgerOk(w) && k in w.calls && w.calls[k].TrailOwed? && w'.calls == w.calls - {k}
    requires w'.db.records == w.db.records + more && w'.past.acts == w.past.acts && w'.past.lost == w.past.lost + lost && w'.db.raws == w.db.raws
    requires var a := w.calls[k].act;
             || (lost == map[] && |more| == 1 && more[0].act == a && RecordOk(w'.past.acts, w'.past.lost, more[0]))
             || (more == [] && lost.Keys == {a} && LossOk(w'.past.acts, w'.past.lost, a))
    ensures LedgerOk(w')
  {
    hide LossOk;
    var a0 := w.calls[k].act;
    assert OwedOk(w, k);
    forall a: nat | a < |w'.past.acts| ensures Accounted(w', a) {
      assert Accounted(w, a);
      if a == a0 {
        assert |more| == 1 ==> w'.db.records[|w.db.records|].act == a;
      } else if Recorded(w.db.records, a) {
        var i :| 0 <= i < |w.db.records| && w.db.records[i].act == a;
        assert w'.db.records[i].act == a;
      } else if Owing(w.calls, a) {
        var j :| j in w.calls && OwesRecord(w.calls[j], a);
        assert j in w'.calls && OwesRecord(w'.calls[j], a);
      }
    }
    PaidRecords(w, w', k, more, lost);
    forall j | j in w'.calls && w'.calls[j].TrailOwed? ensures OwedOk(w', j) { assert OwedOk(w, j) && w.calls[j].act != a0; }
    PaidLosses(w, w', lost);
  }

  lemma PaidLosses(w: World, w': World, lost: map<nat, Loss>)
    requires LedgerOk(w) && w'.past.acts == w.past.acts && w'.past.lost == w.past.lost + lost
    requires forall a | a in lost :: LossOk(w'.past.acts, w'.past.lost, a)
    ensures forall a | a in w'.past.lost :: LossOk(w'.past.acts, w'.past.lost, a)
  {
    forall a | a in w'.past.lost ensures LossOk(w'.past.acts, w'.past.lost, a) { assert a !in lost ==> LossOk(w.past.acts, w.past.lost, a); }
  }

  lemma PaidRecords(w: World, w': World, k: CallId, more: seq<Filed>, lost: map<nat, Loss>)
    requires LedgerOk(w) && OwedOk(w, k) && w'.db.records == w.db.records + more && w'.past.acts == w.past.acts
    requires w'.past.lost == w.past.lost + lost && w'.db.raws == w.db.raws && |more| <= 1 && lost.Keys <= {w.calls[k].act}
    requires |more| == 1 ==> more[0].act == w.calls[k].act && RecordOk(w'.past.acts, w'.past.lost, more[0])
    ensures forall i | 0 <= i < |w'.db.records| :: RecordOk(w'.past.acts, w'.past.lost, w'.db.records[i])
    ensures forall i, j | 0 <= i < j < |w'.db.records| :: w'.db.records[i].act != w'.db.records[j].act
  {
    forall i | 0 <= i < |w'.db.records| ensures RecordOk(w'.past.acts, w'.past.lost, w'.db.records[i]) && (i < |w.db.records| ==> w'.db.records[i].act != w.calls[k].act) {
      if i < |w.db.records| {
        assert RecordOk(w.past.acts, w.past.lost, w.db.records[i]);
        assert w.db.records[i].act != w.calls[k].act;
      }
    }
  }

  lemma FileTrail(w: World, k: CallId, recordId: string, now: int)
    requires TrailOk(w) && k in w.calls && w.calls[k].TrailOwed? && w.calls[k].own.Some?
    ensures TrailOk(DoWriteTrail(w, k, recordId, now))
  {
    hide ActsOk, CapturesOk, LedgerOk;
    var w' := DoWriteTrail(w, k, recordId, now);
    var a := w.calls[k].act;
    OwedNow(w, k);
    var e := w.past.acts[a];
    if e.act.SelfDisposalAct? && e.act.citation == "" {
      LossKeepsCaptures(w, w', k, a, Uncited);
      PaidLedger(w, w', k, [], map[a := Uncited]);
    } else {
      LossKeepsCaptures(w, w', k, a, Uncited);
      PaidLedger(w, w', k, [w'.db.records[|w.db.records|]], map[]);
    }
  }

  lemma OwedNow(w: World, k: CallId)
    requires LedgerOk(w) && k in w.calls && w.calls[k].TrailOwed?
    ensures w.calls[k].act < |w.past.acts| && w.calls[k].act !in w.past.lost
  {
    assert OwedOk(w, k);
  }

  lemma AbandonTrail(w: World, k: CallId)
    requires TrailOk(w)
    ensures TrailOk(DoAbandon(w, k))
  {
    hide ActsOk, CapturesOk, LedgerOk;
    var w' := DoAbandon(w, k);
    if k in w.calls && w.calls[k].TrailOwed? {
      OwedNow(w, k);
      LossKeepsCaptures(w, w', k, w.calls[k].act, Crashed);
      PaidLedger(w, w', k, [], map[w.calls[k].act := Crashed]);
    } else if k in w.calls {
      DropTrail(w, w', k);
    }
  }

  /** A commit that landed, as far as the trail is concerned. */
  ghost predicate Committed(w: World, w': World, k: CallId) {
    && Wins(w, k) && w.db.decisions[w.calls[k].id] == w.calls[k].seen && Allowed(w.calls[k].seen.row, w.calls[k].verb)
    && var c := w.calls[k]; var o := Owed(c.id, c.verb, c.before); var blind := c.verb.Curate? && c.before.None?;
    && c.id in w'.db.decisions && w'.db.decisions[c.id].row == Transform(c.seen.row, c.verb, c.now)
    && w'.db.decisions == w.db.decisions[c.id := w'.db.decisions[c.id]] && w'.db.raws == w.db.raws && w'.db.records == w.db.records
    && w'.past.acts == Noted(w.past.acts, o)
    && w'.past.lost == (if blind then w.past.lost[|w.past.acts| := NothingRead] else w.past.lost)
    && w'.calls == (if o.Some? && !blind then w.calls[k := TrailOwed(|w.past.acts|, None, None)] else w.calls - {k})
  }

  lemma CommitIsCommitted(w: World, k: CallId)
    requires Wins(w, k) && w.db.decisions[w.calls[k].id] == w.calls[k].seen && Allowed(w.calls[k].seen.row, w.calls[k].verb)
    ensures Committed(w, DoCommit(w, k), k)
  {
    hide Transform, Allowed, Unlock, GrantActive;
    var c := w.calls[k];
    OwedShape(c.id, c.verb, c.before);
  }

  lemma OwedShape(id: string, v: Verb, before: Option<Decision>)
    ensures v.Resolve? ==> Owed(id, v, before) == None
    ensures v.Curate? ==> Owed(id, v, before).Some?
  {
  }

  lemma CommitCaptures(w: World, w': World, k: CallId)
    requires ActsOk(w.db.decisions, w.past.acts) && CapturesOk(w) && LossesInRange(w) && Committed(w, w', k)
    requires w.calls[k].seen.row.id == w.calls[k].id
    requires w.calls[k].before.Some? && w.calls[k].verb.Curate? ==> Grows(w.calls[k].before.value, w.calls[k].seen.row)
    requires forall id | id in w.db.decisions :: w.db.decisions[id].row.id == id
    ensures CapturesOk(w')
  {
    hide CaptureOk, Allowed, Transform, Owed, Noted, Grows;
    forall j | j in w'.db.raws ensures CapturedRow(w', j) {
      assert CapturedRow(w, j);
      CommitOneCapture(w, w', k, j, w.db.raws[j]);
    }
    forall j | j in w'.calls && w'.calls[j].RawOwed? ensures OwedCapture(w', j) {
      assert OwedCapture(w, j);
      CommitOneCapture(w, w', k, w.calls[j].id, w.calls[j].raw);
    }
  }

  ghost predicate LossesInRange(w: World) {
    forall a | a in w.past.lost :: a < |w.past.acts|
  }

  lemma CommitOneCapture(w: World, w': World, k: CallId, id: string, raw: Raw)
    requires ActsOk(w.db.decisions, w.past.acts) && LossesInRange(w) && Committed(w, w', k) && w.calls[k].seen.row.id == w.calls[k].id
    requires w.calls[k].before.Some? && w.calls[k].verb.Curate? ==> Grows(w.calls[k].before.value, w.calls[k].seen.row)
    requires id in w.db.decisions && w.db.decisions[id].row.id == id && CaptureOk(w.db.decisions[id].row, w.past.acts, w.past.lost, raw)
    ensures CaptureOk(w'.db.decisions[id].row, w'.past.acts, w'.past.lost, raw)
  {
    hide CaptureOk, Transform, Noted, Grows, Bears;
    var c := w.calls[k];
    forall a | 0 <= a < |w.past.acts| ensures ActOk(w.db.decisions, w.past.acts[a]) {}
    if id == c.id {
      CommitKeepsCapture(c.seen.row, c.verb, c.before, c.now, w.past.acts, w.past.lost, raw);
    } else {
      OthersKeepCapture(w.db.decisions[id].row, w.past.acts, w.past.lost, raw, Owed(c.id, c.verb, c.before), w'.past.lost);
    }
  }

  lemma CommitLedger(w: World, w': World, k: CallId)
    requires LedgerOk(w) && Committed(w, w', k)
    ensures LedgerOk(w')
  {
    hide Transform, Allowed;
    forall a | a in w'.past.lost ensures LossOk(w'.past.acts, w'.past.lost, a) { assert a in w.past.lost ==> LossOk(w.past.acts, w.past.lost, a); }
    forall a: nat | a < |w'.past.acts| ensures Accounted(w', a) { CommitAccounts(w, w', k, a); }
    forall i | 0 <= i < |w'.db.records| ensures RecordOk(w'.past.acts, w'.past.lost, w'.db.records[i]) {
      assert RecordOk(w.past.acts, w.past.lost, w.db.records[i]);
    }
    forall j | j in w'.calls && w'.calls[j].TrailOwed? ensures OwedOk(w', j) && (j != k ==> w'.calls[j].act < |w.past.acts|) {
      assert j != k ==> OwedOk(w, j);
      if j == k { NoneRecordedAhead(w); }
    }
  }

  lemma NoneRecordedAhead(w: World)
    requires LedgerOk(w)
    ensures !Recorded(w.db.records, |w.past.acts|) && |w.past.acts| !in w.past.lost
  {
    assert |w.past.acts| in w.past.lost ==> LossOk(w.past.acts, w.past.lost, |w.past.acts|);
    forall i | 0 <= i < |w.db.records| ensures w.db.records[i].act != |w.past.acts| {
      assert RecordOk(w.past.acts, w.past.lost, w.db.records[i]);
    }
  }

  lemma CommitAccounts(w: World, w': World, k: CallId, a: nat)
    requires LedgerOk(w) && Committed(w, w', k) && a < |w'.past.acts|
    ensures Accounted(w', a)
  {
    hide Transform, Allowed;
    if a < |w.past.acts| {
      assert Accounted(w, a);
      if Owing(w.calls, a) {
        var j :| j in w.calls && OwesRecord(w.calls[j], a);
        assert j in w'.calls && OwesRecord(w'.calls[j], a);
      }
    } else {
      assert k in w'.calls ==> OwesRecord(w'.calls[k], a);
    }
  }

  lemma CommitTrail(w: World, k: CallId)
    requires Inv(w) && TrailOk(w) && k in w.calls && w.calls[k].Loaded?
    ensures TrailOk(DoCommit(w, k))
  {
    hide Inv, ActsOk, CapturesOk, LedgerOk, Grows, Allowed, Transform, DoCommit, Committed;
    LoadedKnows(w, k);
    if Wins(w, k) {
      CommitIsCommitted(w, k);
      CommitWonTrail(w, DoCommit(w, k), k);
    } else {
      LostCommitTrail(w, k);
      SameTrailOk(w, DoCommit(w, k), k);
    }
  }

  lemma LostCommitTrail(w: World, k: CallId)
    requires k in w.calls && w.calls[k].Loaded? && !Wins(w, k)
    ensures SameTrail(w, DoCommit(w, k), k)
  {
  }

  lemma RowIds(w: World)
    requires Inv(w)
    ensures forall id | id in w.db.decisions :: w.db.decisions[id].row.id == id
  {
    forall id | id in w.db.decisions ensures w.db.decisions[id].row.id == id { assert DecisionOk(w.hash, w.db, id); }
  }

  lemma InRange(w: World)
    requires LedgerOk(w)
    ensures LossesInRange(w)
  {
    forall a | a in w.past.lost ensures a < |w.past.acts| { assert LossOk(w.past.acts, w.past.lost, a); }
  }

  lemma CommitWonTrail(w: World, w': World, k: CallId)
    requires Inv(w) && TrailOk(w) && Committed(w, w', k)
    ensures TrailOk(w')
  {
    hide Inv, ActsOk, CapturesOk, LedgerOk, Grows, Allowed, Transform, Owed;
    var c := w.calls[k];
    LoadedKnows(w, k);
    RowIds(w);
    InRange(w);
    CurateKnows(w, k);
    ActsCommitted(w.db.decisions, w.past.acts, c.id, c.verb, c.before, c.now, w'.db.decisions[c.id]);
    CommitCaptures(w, w', k);
    CommitLedger(w, w', k);
  }

  lemma CurateKnows(w: World, k: CallId)
    requires Inv(w) && k in w.calls && w.calls[k].Loaded? && w.calls[k].id in w.db.decisions
    ensures var c := w.calls[k];
            && (c.before.Some? && c.verb.Curate? ==> Grows(c.before.value, w.db.decisions[c.id].row))
            && (c.verb.Merge? ==> c.verb.into in w.db.decisions)
  {
    LoadedKnows(w, k);
  }

  lemma StepTrail(w: World, s: Step)
    requires Inv(w) && TrailOk(w)
    ensures TrailOk(Do(w, s))
  {
    hide Inv, TrailOk, SameTrail, Aside, DoWriteRaw, DoAbandon, DoCommit, DoWriteTrail, DoReadTargetRaw, DoReadOwnRaw, DoRaise;
    if Sidelong(s) { TrailAside(w, s); }
    else if s.Load? { LoadTrail(w, s); SameTrailOk(w, Do(w, s), s.k); }
    else { TrailStep(w, s); }
  }

  lemma TrailAside(w: World, s: Step)
    requires TrailOk(w) && Sidelong(s)
    ensures TrailOk(Do(w, s))
  {
    hide TrailOk, SameTrail, Aside, Do;
    SidelongSteps(w, s);
    SidelongTrail(w, Do(w, s), s.k);
    SameTrailOk(w, Do(w, s), s.k);
  }

  /** A call that owes a record has read a capture for it, and owes the record still. */
  lemma RawReadTrail(w: World, w': World, k: CallId)
    requires TrailOk(w) && (w' == DoReadTargetRaw(w, k) || w' == DoReadOwnRaw(w, k))
    ensures TrailOk(w')
  {
    hide RawIds, CapturedRow, RecordOk, LossOk;
    if w' != w {
      forall j | j in w'.db.raws ensures CapturedRow(w', j) { SameCapture(w, w', j); }
      forall j | j in w'.calls && w'.calls[j].RawOwed? ensures OwedCapture(w', j) { assert OwedCapture(w, j); }
      forall a: nat | a < |w'.past.acts| ensures Accounted(w', a) { RawReadAccounts(w, w', k, a); }
      forall j | j in w'.calls && w'.calls[j].TrailOwed? ensures OwedOk(w', j) { assert OwedOk(w, j); }
    }
  }

  lemma SameCapture(w: World, w': World, id: string)
    requires CapturesOk(w) && id in w.db.raws && w'.db == w.db && w'.past == w.past
    ensures CapturedRow(w', id)
  {
    hide CaptureOk;
    assert CapturedRow(w, id);
  }

  lemma RawReadAccounts(w: World, w': World, k: CallId, a: nat)
    requires LedgerOk(w) && a < |w.past.acts| && w'.db == w.db && w'.past == w.past && k in w.calls && w.calls[k].TrailOwed?
    requires k in w'.calls && OwesRecord(w'.calls[k], w.calls[k].act) && w'.calls == w.calls[k := w'.calls[k]]
    ensures Accounted(w', a)
  {
    assert Accounted(w, a);
    if Owing(w.calls, a) {
      var j :| j in w.calls && OwesRecord(w.calls[j], a);
      assert j in w'.calls && OwesRecord(w'.calls[j], a);
    }
  }

  lemma TrailStep(w: World, s: Step)
    requires Inv(w) && TrailOk(w) && (s.Raise? || s.WriteRaw? || s.Commit? || s.ReadTargetRaw? || s.ReadOwnRaw? || s.WriteTrail? || s.Abandon?)
    ensures TrailOk(Do(w, s))
  {
    hide Inv, TrailOk, DoAbandon, DoReadTargetRaw, DoReadOwnRaw;
    match s
    case Raise(k, id, input, rawId, now) => if k !in w.calls && id !in w.db.decisions { RaiseTrail(w, k, id, input, rawId, now); }
    case WriteRaw(k) => if k in w.calls && w.calls[k].RawOwed? { WriteRawTrail(w, k); }
    case Commit(k) => if k in w.calls && w.calls[k].Loaded? { CommitTrail(w, k); }
    case ReadTargetRaw(k) => RawReadTrail(w, DoReadTargetRaw(w, k), k);
    case ReadOwnRaw(k) => RawReadTrail(w, DoReadOwnRaw(w, k), k);
    case WriteTrail(k, recordId, now) => if k in w.calls && w.calls[k].TrailOwed? && w.calls[k].own.Some? { FileTrail(w, k, recordId, now); }
    case Abandon(k) => AbandonTrail(w, k);
  }

  lemma {:induction false} RunTrail(w: World, steps: seq<Step>)
    requires Inv(w) && TrailOk(w)
    ensures TrailOk(Run(w, steps))
    decreases |steps|
  {
    hide Inv, TrailOk, Do;
    if steps != [] {
      StepSafe(w, steps[0]);
      StepTrail(w, steps[0]);
      RunTrail(Do(w, steps[0]), steps[1..]);
    }
  }

  lemma ReachedTrail(hash: Hash, steps: seq<Step>)
    ensures Inv(Reached(hash, steps)) && TrailOk(Reached(hash, steps))
  {
    ReachedInv(hash, steps);
    InitInv(hash);
    RunTrail(Init(hash), steps);
  }

  /* ------------------------------------------------------------------ what the trail is for */

  /** Applies the class changes on record for a decision, oldest first.  A change that does not start
      from the class reached so far makes the trail unreadable. */
  function Replay(raised: Option<string>, records: seq<Filed>, id: string): Option<Option<string>>
    decreases |records|
  {
    if records == [] then Some(raised)
    else
      var so := Replay(raised, records[..|records| - 1], id);
      var e := records[|records| - 1].record.entry;
      if so.None? || e.decisionId != id || !e.act.CurateAct? || e.act.change.None? then so
      else if e.act.change.value.before != so.value then None
      else Some(Some(e.act.change.value.after))
  }

  /** Nothing that is to be written of the decision was lost, or is still to come: its capture, and a record of every
      act committed on it. */
  ghost predicate NothingMissing(w: World, id: string) {
    && id !in w.past.uncaptured && (forall k | k in w.calls && w.calls[k].RawOwed? :: w.calls[k].id != id)
    && forall a | 0 <= a < |w.past.acts| && w.past.acts[a].decisionId == id :: a !in w.past.lost && !Owing(w.calls, a)
  }

  ghost predicate CurateOnRecord(records: seq<Filed>, n: nat, id: string) {
    exists i :: 0 <= i < n <= |records| && records[i].record.entry.decisionId == id && records[i].record.entry.act.CurateAct?
  }

  lemma RecordsAreDistinct(w: World, i: nat, j: nat)
    requires TrailOk(w) && i < |w.db.records| && j < |w.db.records| && i != j
    ensures !SameAct(w.db.records[i].record.entry, w.db.records[j].record.entry)
  {
    assert RecordOk(w.past.acts, w.past.lost, w.db.records[i]);
    assert RecordOk(w.past.acts, w.past.lost, w.db.records[j]);
    var a, b := w.db.records[i].act, w.db.records[j].act;
    assert a != b;
    assert !SameAct(w.past.acts[a], w.past.acts[b]) || !SameAct(w.past.acts[b], w.past.acts[a]);
  }

  lemma RecordKnows(w: World, i: nat)
    requires TrailOk(w) && i < |w.db.records|
    ensures RecordOk(w.past.acts, w.past.lost, w.db.records[i])
    ensures var e := w.db.records[i].record.entry; ActOk(w.db.decisions, e)
  {
    assert RecordOk(w.past.acts, w.past.lost, w.db.records[i]);
    assert ActOk(w.db.decisions, w.past.acts[w.db.records[i].act]);
  }

  lemma {:induction false} ReplayPrefix(w: World, id: string, n: nat)
    requires TrailOk(w) && id in w.db.raws && id in w.db.decisions && w.db.decisions[id].row.id == id && n <= |w.db.records|
    ensures Replay(w.db.raws[id].cls, w.db.records[..n], id)
            == Some(if CurateOnRecord(w.db.records, n, id) then w.db.decisions[id].row.cls else w.db.raws[id].cls)
    decreases n
  {
    hide ActsOk, LedgerOk;
    if n > 0 {
      ReplayPrefix(w, id, n - 1);
      assert w.db.records[..n][..n - 1] == w.db.records[..n - 1];
      assert CapturedRow(w, id);
      RecordKnows(w, n - 1);
      var e := w.db.records[n - 1].record.entry;
      if e.decisionId == id && e.act.CurateAct? {
        if CurateOnRecord(w.db.records, n - 1, id) {
          var i :| 0 <= i < n - 1 && w.db.records[i].record.entry.decisionId == id && w.db.records[i].record.entry.act.CurateAct?;
          RecordsAreDistinct(w, i, n - 1);
        }
        assert w.past.acts[w.db.records[n - 1].act].act.change == Difference(w.db.raws[id].cls, w.db.decisions[id].row.cls);
        assert CurateOnRecord(w.db.records, n, id);
      } else {
        assert CurateOnRecord(w.db.records, n, id) ==> CurateOnRecord(w.db.records, n - 1, id);
        assert CurateOnRecord(w.db.records, n - 1, id) ==> CurateOnRecord(w.db.records, n, id);
      }
    }
  }

  lemma ActRecorded(w: World, a: nat)
    requires TrailOk(w) && a < |w.past.acts| && a !in w.past.lost && !Owing(w.calls, a)
    ensures exists i :: 0 <= i < |w.db.records| && w.db.records[i].act == a && w.db.records[i].record.entry == w.past.acts[a]
  {
    assert Accounted(w, a);
    var i :| 0 <= i < |w.db.records| && w.db.records[i].act == a;
    RecordKnows(w, i);
  }

  /** A capture that was written still holds what was raised, word for word, and replaying the records over the class it
      was raised with gives the class it has now. */
  lemma CaptureAndReplay(hash: Hash, steps: seq<Step>, id: string)
    requires id in Reached(hash, steps).db.raws && NothingMissing(Reached(hash, steps), id)
    ensures var db := Reached(hash, steps).db;
            && id in db.decisions && var d, raw := db.decisions[id].row, db.raws[id];
            && raw.title == d.title && raw.context == d.context && raw.options == d.options && raw.contextRefs == d.contextRefs
            && raw.raisedBy == d.raisedBy && raw.raisedAt == d.createdAt
            && Replay(raw.cls, db.records, id) == Some(d.cls)
  {
    hide LedgerOk, ActsOk;
    var w := Reached(hash, steps);
    ReachedTrail(hash, steps);
    RowIds(w);
    assert CapturedRow(w, id);
    ReplayPrefix(w, id, |w.db.records|);
    assert w.db.records[..|w.db.records|] == w.db.records;
    if Curates(w.past.acts, id) {
      var a :| 0 <= a < |w.past.acts| && w.past.acts[a].decisionId == id && w.past.acts[a].act.CurateAct?;
      ActRecorded(w, a);
    }
  }

  /** A merged decision has exactly one merge record, and it names the decision merged into. */
  lemma OneMergeRecord(hash: Hash, steps: seq<Step>, id: string) returns (i: nat)
    requires var w := Reached(hash, steps); id in w.db.decisions && w.db.decisions[id].row.status == Merged && NothingMissing(w, id)
    ensures var db := Reached(hash, steps).db; var into := db.decisions[id].row.mergedInto;
            && i < |db.records| && into.Some? && var f := db.records[i];
            && f.record.entry.decisionId == id && f.record.entry.act == MergeAct(into.value)
            && forall j | 0 <= j < |db.records| && db.records[j].record.entry.decisionId == id && db.records[j].record.entry.act.MergeAct? :: j == i
  {
    hide LedgerOk, CapturesOk;
    var w := Reached(hash, steps);
    ReachedTrail(hash, steps);
    assert RowCovered(w.db.decisions, w.past.acts, id);
    var a :| 0 <= a < |w.past.acts| && w.past.acts[a].decisionId == id && w.past.acts[a].act.MergeAct?;
    ActRecorded(w, a);
    i :| 0 <= i < |w.db.records| && w.db.records[i].act == a && w.db.records[i].record.entry == w.past.acts[a];
    RecordKnows(w, i);
    forall j | 0 <= j < |w.db.records| && w.db.records[j].record.entry.decisionId == id && w.db.records[j].record.entry.act.MergeAct? ensures j == i {
      if j != i { RecordsAreDistinct(w, i, j); }
    }
  }

  /** The same for a decision routed to its own disposal: one record, and it cites what the route cites. */
  lemma SelfDisposalIsOnRecord(hash: Hash, steps: seq<Step>, id: string) returns (i: nat)
    requires var w := Reached(hash, steps); id in w.db.decisions && RoutesItself(w.db.decisions[id].row) && NothingMissing(w, id)
    ensures var db := Reached(hash, steps).db;
            && i < |db.records| && RoutesItself(db.decisions[id].row) && var f := db.records[i];
            && f.record.entry.decisionId == id && f.record.entry.act == SelfDisposalAct(Citation(db.decisions[id].row.routedTo.value))
            && f.record.entry.act.citation != ""
            && forall j | 0 <= j < |db.records| && db.records[j].record.entry.decisionId == id && db.records[j].record.entry.act.SelfDisposalAct? :: j == i
  {
    hide LedgerOk, CapturesOk;
    var w := Reached(hash, steps);
    ReachedTrail(hash, steps);
    assert RowCovered(w.db.decisions, w.past.acts, id);
    var a :| 0 <= a < |w.past.acts| && w.past.acts[a].decisionId == id && w.past.acts[a].act.SelfDisposalAct?;
    ActRecorded(w, a);
    i :| 0 <= i < |w.db.records| && w.db.records[i].act == a && w.db.records[i].record.entry == w.past.acts[a];
    RecordKnows(w, i);
    forall j | 0 <= j < |w.db.records| && w.db.records[j].record.entry.decisionId == id && w.db.records[j].record.entry.act.SelfDisposalAct? ensures j == i {
      if j != i { RecordsAreDistinct(w, i, j); }
    }
  }

  /** And for the other two acts. */
  lemma CurateAndDisposeAreOnRecord(hash: Hash, steps: seq<Step>, id: string)
    requires var w := Reached(hash, steps); id in w.db.decisions && NothingMissing(w, id)
    ensures var db := Reached(hash, steps).db; var p := db.decisions[id].row.status;
            && (p in {Curated, Routed, Phase.Resolved, Executed} ==>
                  exists i :: 0 <= i < |db.records| && db.records[i].record.entry.decisionId == id && db.records[i].record.entry.act.CurateAct?)
            && (p == Disposed ==>
                  exists i :: 0 <= i < |db.records| && db.records[i].record.entry.decisionId == id && db.records[i].record.entry.act.DisposeAct?)
    ensures var records := Reached(hash, steps).db.records;
            forall i, j | 0 <= i < j < |records| :: !SameAct(records[i].record.entry, records[j].record.entry)
  {
    hide LedgerOk, CapturesOk;
    var w := Reached(hash, steps);
    ReachedTrail(hash, steps);
    assert RowCovered(w.db.decisions, w.past.acts, id);
    forall a | 0 <= a < |w.past.acts| && w.past.acts[a].decisionId == id
      ensures exists i :: 0 <= i < |w.db.records| && w.db.records[i].act == a && w.db.records[i].record.entry == w.past.acts[a]
    {
      ActRecorded(w, a);
    }
    forall i, j | 0 <= i < j < |w.db.records| ensures !SameAct(w.db.records[i].record.entry, w.db.records[j].record.entry) {
      RecordsAreDistinct(w, i, j);
    }
  }

  /* ------------------------------------------------------------------ which acts leave no record */

  lemma {:induction false} NothingCrashes(w: World, steps: seq<Step>)
    requires forall s | s in steps :: !s.Abandon?
    requires forall a | a in w.past.lost :: w.past.lost[a] != Crashed
    ensures forall a | a in Run(w, steps).past.lost :: Run(w, steps).past.lost[a] != Crashed
    decreases |steps|
  {
    hide Do;
    if steps != [] {
      assert steps[0] in steps;
      NoNewCrash(w, steps[0]);
      NothingCrashes(Do(w, steps[0]), steps[1..]);
    }
  }

  lemma NoNewCrash(w: World, s: Step)
    requires !s.Abandon? && forall a | a in w.past.lost :: w.past.lost[a] != Crashed
    ensures forall a | a in Do(w, s).past.lost :: Do(w, s).past.lost[a] != Crashed
  {
    if Sidelong(s) { hide Do; SidelongSteps(w, s); }
  }

  /** In a run without crashes, once its caller is done a committed act has its record, exactly one, unless
      it is one of two kinds: a curate whose first read found no row, or a self-disposal whose citation is
      the empty string. */
  lemma WhichActsAreOnRecord(hash: Hash, steps: seq<Step>, a: nat)
    requires forall s | s in steps :: !s.Abandon?
    requires a < |Reached(hash, steps).past.acts| && !Owing(Reached(hash, steps).calls, a)
    ensures var w := Reached(hash, steps);
            && (Recorded(w.db.records, a) <==>
                  !(a in w.past.lost && w.past.lost[a] == NothingRead) && w.past.acts[a].act != SelfDisposalAct(""))
            && (a in w.past.lost && w.past.lost[a] == NothingRead ==> w.past.acts[a].act == CurateAct(None))
            && forall i, j | 0 <= i < |w.db.records| && 0 <= j < |w.db.records| && w.db.records[i].act == a && w.db.records[j].act == a :: i == j
  {
    hide CapturesOk, ActsOk;
    var w := Reached(hash, steps);
    ReachedTrail(hash, steps);
    NothingCrashes(Init(hash), steps);
    assert Accounted(w, a);
    if a in w.past.lost { assert LossOk(w.past.acts, w.past.lost, a); }
    forall i | 0 <= i < |w.db.records| && w.db.records[i].act == a ensures a !in w.past.lost && w.past.acts[a].act != SelfDisposalAct("") { RecordKnows(w, i); }
  }

  /** Which curate calls those are: the ones that had read no row when they began. */
  lemma BlindCuratesLeaveNoRecord(hash: Hash, steps: seq<Step>, k: CallId)
    requires Wins(Reached(hash, steps), k) && Reached(hash, steps).calls[k].verb.Curate?
    ensures var w := Reached(hash, steps); var w' := Do(w, Commit(k)); var a := |w.past.acts|;
            && |w'.past.acts| == a + 1 && w'.past.acts[a].decisionId == w.calls[k].id && w'.past.acts[a].act.CurateAct?
            && (w.calls[k].before.None? <==> a in w'.past.lost && w'.past.lost[a] == NothingRead)
            && (w.calls[k].before.Some? <==> k in w'.calls && OwesRecord(w'.calls[k], a))
  {
    hide Inv, Grows, Allowed, LedgerOk;
    var w := Reached(hash, steps);
    ReachedTrail(hash, steps);
    LoadedKnows(w, k);
    NoneRecordedAhead(w);
  }

  const SOMEONE := Actor("agent-1", "architect", None)

  const PLAIN_INPUT := RaiseInput(None, None, "title", "context", [], [], SOMEONE)

  lemma RunFive(w: World, s: Step, t: Step, u: Step, v: Step, x: Step)
    ensures Run(w, [s, t, u, v, x]) == Do(Do(Do(Do(Do(w, s), t), u), v), x)
  {
    hide Do;
    RunAppend(w, [s, t, u, v], [x]);
    RunAppend(w, [s, t, u], [v]);
    RunAppend(w, [s, t], [u]);
    RunAppend(w, [s], [t]);
    assert [s] + [t] == [s, t] && [s, t] + [u] == [s, t, u] && [s, t, u] + [v] == [s, t, u, v] && [s, t, u, v] + [x] == [s, t, u, v, x];
  }

  const EARLY_CURATE := Curate(SOMEONE, None, Some("ops"), "triage")

  lemma CurateReadsTooEarly(hash: Hash)
    ensures var w := Do(Do(Do(Init(hash), Begin(0, "decision-1", EARLY_CURATE)), Raise(1, "decision-1", PLAIN_INPUT, "raw-1", 1)), WriteRaw(1));
            && w.calls == map[0 := Ready("decision-1", EARLY_CURATE, None)] && w.db.records == [] && w.past.acts == []
            && w.db.decisions == map["decision-1" := Versioned(Fresh("decision-1", PLAIN_INPUT, 1), 1)]
            && w.db.raws.Keys == {"decision-1"} && w.db.raws["decision-1"].cls == None
  {
    var w := Do(Init(hash), Begin(0, "decision-1", EARLY_CURATE));
    assert w.calls == map[0 := Ready("decision-1", EARLY_CURATE, None)];
    var u := Do(w, Raise(1, "decision-1", PLAIN_INPUT, "raw-1", 1));
    assert u.calls[1].RawOwed? && u.calls - {1} == w.calls;
  }

  lemma CurateLoads(w: World)
    requires w.calls == map[0 := Ready("decision-1", EARLY_CURATE, None)] && "decision-1" in w.db.decisions && w.db.decisions["decision-1"].row.status == Raised
    ensures var u := Do(w, Load(0, 2)); u.calls == map[0 := Loaded("decision-1", EARLY_CURATE, None, w.db.decisions["decision-1"], 2)] && u.db == w.db
  {
  }

  lemma CurateCommitsUnseen(w: World, seen: Versioned<Decision>)
    requires w.calls == map[0 := Loaded("decision-1", EARLY_CURATE, None, seen, 2)] && seen.row.status == Raised
    requires "decision-1" in w.db.decisions && w.db.decisions["decision-1"] == seen
    ensures var w' := Do(w, Commit(0));
            && w'.calls == map[] && w'.db.records == w.db.records && w'.db.raws == w.db.raws && "decision-1" in w'.db.decisions
            && w'.db.decisions["decision-1"].row.status == Curated && w'.db.decisions["decision-1"].row.cls == Some("ops")
  {
    assert w.calls - {0} == map[];
  }

  /** Such a run exists: the curate reads before the raise lands and loads after it.  It changes the class
      and nothing on the trail says so, with no crash and no call left in flight. */
  lemma ACurateCanGoUnrecorded(hash: Hash) returns (steps: seq<Step>)
    ensures var w := Reached(hash, steps);
            && (forall s | s in steps :: !s.Abandon?) && w.calls == map[] && w.db.records == []
            && "decision-1" in w.db.decisions && "decision-1" in w.db.raws && w.db.decisions["decision-1"].row.status == Curated
            && w.db.raws["decision-1"].cls == None && w.db.decisions["decision-1"].row.cls == Some("ops")
            && Replay(w.db.raws["decision-1"].cls, w.db.records, "decision-1") != Some(w.db.decisions["decision-1"].row.cls)
  {
    hide Do;
    var s, t := Begin(0, "decision-1", EARLY_CURATE), Raise(1, "decision-1", PLAIN_INPUT, "raw-1", 1);
    steps := [s, t, WriteRaw(1), Load(0, 2), Commit(0)];
    RunFive(Init(hash), s, t, WriteRaw(1), Load(0, 2), Commit(0));
    CurateReadsTooEarly(hash);
    var w := Do(Do(Do(Init(hash), s), t), WriteRaw(1));
    CurateLoads(w);
    CurateCommitsUnseen(Do(w, Load(0, 2)), w.db.decisions["decision-1"]);
  }

  /** In a run without crashes, once its callers are done, a decision routed to its own disposal has its record if and only
      if its route does not give the empty string for a grant. */
  lemma SelfDisposalIsRecordedIff(hash: Hash, steps: seq<Step>, id: string)
    requires forall s | s in steps :: !s.Abandon?
    requires var w := Reached(hash, steps);
             && id in w.db.decisions && RoutesItself(w.db.decisions[id].row)
             && forall a: nat | a < |w.past.acts| && w.past.acts[a].decisionId == id :: !Owing(w.calls, a)
    ensures var db := Reached(hash, steps).db;
            RoutesItself(db.decisions[id].row)
            && ((exists i :: 0 <= i < |db.records| && db.records[i].record.entry.decisionId == id && db.records[i].record.entry.act.SelfDisposalAct?)
                <==> db.decisions[id].row.routedTo.value.classGrantRef != Some(""))
  {
    hide LedgerOk, CapturesOk, Inv;
    var w := Reached(hash, steps);
    ReachedTrail(hash, steps);
    RowKnows(w, id);
    assert RowCovered(w.db.decisions, w.past.acts, id);
    var a: nat :| a < |w.past.acts| && w.past.acts[a].decisionId == id && w.past.acts[a].act.SelfDisposalAct?;
    assert ActOk(w.db.decisions, w.past.acts[a]);
    WhichActsAreOnRecord(hash, steps, a);
    forall i | 0 <= i < |w.db.records| ensures w.db.records[i].act < |w.past.acts| && w.db.records[i].record.entry == w.past.acts[w.db.records[i].act] { RecordKnows(w, i); }
    CitationIsEmptyIff(w.db.decisions[id].row);
  }

  lemma CitationIsEmptyIff(d: Decision)
    requires RoutesItself(d) && WellFormed(d)
    ensures Citation(d.routedTo.value) == "" <==> d.routedTo.value.classGrantRef == Some("")
  {
  }
}
