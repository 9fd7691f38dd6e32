/** Who answered what: a confirmation is only ever answered by a signal that was captured for it. */
module RailAnswers {
  import opened Substrate
  import opened Decisions
  import opened DirectorProof
  import opened ClassGrants
  import opened Rail
  import opened RailSafety
  import opened RailTheorems

  /** The signal is stored, and says itself that it answers this confirmation. */
  predicate Answers(signals: map<string, Signal>, sid: string, cid: string) {
    sid in signals && signals[sid].confirmationId == Some(cid)
  }

  ghost predicate RowAnswered(w: World, cid: string) {
    cid in w.db.confirmations && var a := w.db.confirmations[cid].row.answeredBy; a.Some? ==> Answers(w.db.signals, a.value, cid)
  }

  predicate Proving(c: Call) {
    c.ConfReady? || c.ConfLoaded?
  }

  ghost predicate CallAnswers(w: World, k: CallId) {
    k in w.calls && var c := w.calls[k];
    Proving(c) && c.cop.BindAnswer? ==> Answers(w.db.signals, c.cop.signalId, c.cid)
  }

  ghost predicate AnswersOk(w: World) {
    && (forall cid {:trigger RowAnswered(w, cid)} | cid in w.db.confirmations :: RowAnswered(w, cid))
    && (forall k {:trigger CallAnswers(w, k)} | k in w.calls :: CallAnswers(w, k))
  }

  /** A step on other business: no confirmation and no signal is written, and nobody sets out to. */
  ghost predicate Elsewhere(w: World, w': World) {
    && w'.db.confirmations == w.db.confirmations && w'.db.signals == w.db.signals
    && forall j | j in w'.calls && Proving(w'.calls[j]) :: j in w.calls && w'.calls[j] == w.calls[j]
  }

  lemma ElsewhereAnswers(w: World, w': World)
    requires AnswersOk(w) && Elsewhere(w, w')
    ensures AnswersOk(w')
  {
    forall cid | cid in w'.db.confirmations ensures RowAnswered(w', cid) { assert RowAnswered(w, cid); }
    forall k | k in w'.calls ensures CallAnswers(w', k) { if Proving(w'.calls[k]) { assert CallAnswers(w, k); } }
  }

  lemma VerbsElsewhere(w: World, s: Step)
    requires s.Raise? || s.WriteRaw? || s.Begin? || s.Load? || s.ReadTargetRaw? || s.ReadOwnRaw? || s.WriteTrail? || s.Abandon?
    ensures Elsewhere(w, Do(w, s))
  {
    hide Allowed, Blank, Unlock, Fresh, RawIds;
  }

  lemma CommitElsewhere(w: World, s: Step)
    requires s.Commit?
    ensures Elsewhere(w, Do(w, s))
  {
    hide Allowed, Transform, Unlock, GrantActive;
  }

  lemma GrantsElsewhere(w: World, s: Step)
    requires s.BeginRevoke? || s.Acquire? || s.GrantLoad? || s.GrantCommit?
    ensures Elsewhere(w, Do(w, s))
  {
    hide Blank, UnderGrant, GrantTransform, Unlock;
  }

  lemma GateElsewhere(w: World, s: Step)
    requires s.BeginResolve? || s.ReadDecision? || s.ReadAnswer?
    ensures Elsewhere(w, Do(w, s))
  {
    hide Consumable, Expected, Unlock;
  }

  lemma ProofElsewhere(w: World, s: Step)
    requires s.ReadProof?
    ensures Elsewhere(w, Do(w, s))
  {
    hide Evaluates, PlanRequiresConfirmation, Unlock, Cites;
  }

  lemma MintsElsewhere(w: World, s: Step)
    requires s.BeginMint? || s.ReadPrior? || s.ConsumeRatification?
    ensures Elsewhere(w, Do(w, s))
  {
    hide Ratifies, Consistent, Unlock, Cites;
  }

  lemma GrantWriteElsewhere(w: World, s: Step)
    requires s.WriteGrant?
    ensures Elsewhere(w, Do(w, s))
  {
    hide Unlock, NewGrant, Cites;
  }

  /** A signal is written once, and the call it opens is about the confirmation it names. */
  lemma SignalAnswers(w: World, s: Step)
    requires AnswersOk(w) && s.MintSignal?
    ensures AnswersOk(Do(w, s))
  {
    var w' := Do(w, s);
    if w' != w {
      forall cid | cid in w'.db.confirmations ensures RowAnswered(w', cid) { assert RowAnswered(w, cid); }
      forall k | k in w'.calls ensures CallAnswers(w', k) { if k != s.k { assert CallAnswers(w, k); } }
    }
  }

  lemma NewConfirmationAnswers(w: World, s: Step)
    requires AnswersOk(w) && s.MintConfirmation?
    ensures AnswersOk(Do(w, s))
  {
    var w' := Do(w, s);
    forall cid | cid in w'.db.confirmations ensures RowAnswered(w', cid) { if cid in w.db.confirmations { assert RowAnswered(w, cid); } }
    forall k | k in w'.calls ensures CallAnswers(w', k) { assert CallAnswers(w, k); }
  }

  lemma WriterAnswers(w: World, s: Step)
    requires AnswersOk(w) && (s.BeginConsume? || s.ConfLoad?)
    ensures AnswersOk(Do(w, s))
  {
    hide ConfAllowed, Unlock;
    var w' := Do(w, s);
    forall cid | cid in w'.db.confirmations ensures RowAnswered(w', cid) { assert RowAnswered(w, cid); }
    forall k | k in w'.calls ensures CallAnswers(w', k) { assert k in w.calls ==> CallAnswers(w, k); }
  }

  lemma ConfCommitAnswers(w: World, s: Step)
    requires Inv(w) && AnswersOk(w) && s.ConfCommit? && s.k in w.calls && w.calls[s.k].ConfLoaded?
    ensures AnswersOk(Do(w, s))
  {
    hide Inv, Unlock, ConfAllowed;
    ConfLoadedKnows(w, s.k);
    assert CallAnswers(w, s.k);
    var w' := Do(w, s);
    forall cid | cid in w'.db.confirmations ensures RowAnswered(w', cid) { assert RowAnswered(w, cid); }
    forall k | k in w'.calls ensures CallAnswers(w', k) { assert CallAnswers(w, k); }
  }

  lemma StepAnswers(w: World, s: Step)
    requires Inv(w) && AnswersOk(w)
    ensures AnswersOk(Do(w, s))
  {
    hide Inv, AnswersOk, Do, Elsewhere;
    if s.MintSignal? { SignalAnswers(w, s); }
    else if s.MintConfirmation? { NewConfirmationAnswers(w, s); }
    else if s.BeginConsume? || s.ConfLoad? { WriterAnswers(w, s); }
    else if s.ConfCommit? { if s.k in w.calls && w.calls[s.k].ConfLoaded? { ConfCommitAnswers(w, s); } else { IdleConfCommit(w, s); } }
    else {
      if s.Commit? { CommitElsewhere(w, s); }
      else if s.BeginRevoke? || s.Acquire? || s.GrantLoad? || s.GrantCommit? { GrantsElsewhere(w, s); }
      else if s.BeginResolve? || s.ReadDecision? || s.ReadAnswer? { GateElsewhere(w, s); }
      else if s.ReadProof? { ProofElsewhere(w, s); }
      else if s.BeginMint? || s.ReadPrior? || s.ConsumeRatification? { MintsElsewhere(w, s); }
      else if s.WriteGrant? { GrantWriteElsewhere(w, s); }
      else { VerbsElsewhere(w, s); }
      ElsewhereAnswers(w, Do(w, s));
    }
  }

  lemma IdleConfCommit(w: World, s: Step)
    requires s.ConfCommit? && !(s.k in w.calls && w.calls[s.k].ConfLoaded?)
    ensures Do(w, s) == w
  {
  }

  lemma {:induction false} RunAnswers(w: World, steps: seq<Step>)
    requires Inv(w) && AnswersOk(w)
    ensures AnswersOk(Run(w, steps))
    decreases |steps|
  {
    hide Inv, AnswersOk, Do;
    if steps != [] {
      StepSafe(w, steps[0]);
      StepAnswers(w, steps[0]);
      RunAnswers(Do(w, steps[0]), steps[1..]);
    }
  }

  /** In every reachable state a confirmation that has an answer was answered by a stored signal captured for this very
      confirmation, so no signal answers two. */
  lemma AnswersWereMeant(hash: Hash, steps: seq<Step>, cid: string)
    requires var db := Reached(hash, steps).db; cid in db.confirmations && db.confirmations[cid].row.answeredBy.Some?
    ensures var db := Reached(hash, steps).db; Answers(db.signals, db.confirmations[cid].row.answeredBy.value, cid)
  {
    InitInv(hash);
    RunAnswers(Init(hash), steps);
    assert RowAnswered(Reached(hash, steps), cid);
  }

  /** The signal in which a Director answered the question a resolution rests on. */
  function AnsweringSignal(db: Store, r: Resolution): Option<string> {
    if r.mode == DirectorDirect && r.ref.ProofRef? && r.ref.id in db.confirmations then db.confirmations[r.ref.id].row.answeredBy else None
  }

  /** A Director's word is good for one decision: what he said to settle one never stands behind another, however
      many confirmations and callers there are. */
  lemma OneWordSettlesOneDecision(hash: Hash, steps: seq<Step>, a: string, b: string)
    requires a != b && {a, b} <= Reached(hash, steps).db.decisions.Keys
    requires var db := Reached(hash, steps).db;
             && db.decisions[a].row.resolution.Some? && db.decisions[a].row.resolution.value.mode == DirectorDirect
             && db.decisions[b].row.resolution.Some? && db.decisions[b].row.resolution.value.mode == DirectorDirect
    ensures var db := Reached(hash, steps).db;
            var x, y := AnsweringSignal(db, db.decisions[a].row.resolution.value), AnsweringSignal(db, db.decisions[b].row.resolution.value);
            && x.Some? && y.Some? && x != y && x.value in db.signals && y.value in db.signals
            && db.signals[x.value].capturedBy.role == "director" && db.signals[y.value].capturedBy.role == "director"
  {
    var db := Reached(hash, steps).db;
    EveryResolutionIsJustified(hash, steps, a);
    EveryResolutionIsJustified(hash, steps, b);
    AnswersWereMeant(hash, steps, db.decisions[a].row.resolution.value.ref.id);
    AnswersWereMeant(hash, steps, db.decisions[b].row.resolution.value.ref.id);
  }
}
