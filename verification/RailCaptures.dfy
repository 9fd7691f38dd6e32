/** The captures: that they are all written and never lost, and which of them a merge record cites. */
module RailCaptures {
  import opened Substrate
  import opened Decisions
  import opened DirectorProof
  import opened Rail
  import opened RailSafety
  import opened RailTheorems
  import opened RailTrail

  /* ------------------------------------------------------------------ captures stay, records pile up */

  /** Captures are only added, and not to a decision that has one; records are only appended, one at a time. */
  ghost predicate TrailGrows(w: World, w': World) {
    && Extends(w.db.raws, w'.db.raws)
    && w.db.records <= w'.db.records && |w'.db.records| <= |w.db.records| + 1
  }

  /** The record a step appends is the one its call owed, and cites what the call had read. */
  ghost predicate WritesWhatWasRead(w: World, w': World, s: Step) {
    |w'.db.records| > |w.db.records| ==>
      && s.WriteTrail? && s.k in w.calls && w.calls[s.k].TrailOwed? && w.calls[s.k].own.Some? && w.calls[s.k].act < |w.past.acts|
      && var c, f := w.calls[s.k], w'.db.records[|w.db.records|];
      && f.act == c.act && f.record.entry == w.past.acts[c.act] && f.record.sourceRawIds == c.own.value + Default(c.target, [])
  }

  lemma WriteRawGrows(w: World, k: CallId)
    requires TrailOk(w)
    ensures TrailGrows(w, DoWriteRaw(w, k)) && |DoWriteRaw(w, k).db.records| == |w.db.records|
  {
    hide ActsOk, LedgerOk, CaptureOk, Unlock;
    if k in w.calls && w.calls[k].RawOwed? { assert OwedCapture(w, k); }
  }

  lemma WriteTrailGrows(w: World, k: CallId, recordId: string, now: int)
    ensures var w' := DoWriteTrail(w, k, recordId, now); TrailGrows(w, w') && WritesWhatWasRead(w, w', WriteTrail(k, recordId, now))
  {
    hide Unlock, RawIds;
  }

  lemma CommitGrows(w: World, k: CallId)
    ensures DoCommit(w, k).db.raws == w.db.raws && DoCommit(w, k).db.records == w.db.records
  {
    hide Allowed, Transform, Unlock, GrantActive, Owed;
  }

  /** Neither a capture nor a record was written. */
  lemma NothingWritten(w: World, w': World, s: Step)
    requires w'.db.raws == w.db.raws && w'.db.records == w.db.records
    ensures TrailGrows(w, w') && WritesWhatWasRead(w, w', s)
  {
  }

  lemma NoRecordWritten(w: World, w': World, s: Step)
    requires |w'.db.records| == |w.db.records|
    ensures WritesWhatWasRead(w, w', s)
  {
  }

  lemma StepGrows(w: World, s: Step)
    requires TrailOk(w)
    ensures TrailGrows(w, Do(w, s)) && WritesWhatWasRead(w, Do(w, s), s)
  {
    hide TrailOk, DoWriteRaw, DoWriteTrail, DoCommit, TrailGrows, WritesWhatWasRead;
    if s.WriteRaw? { WriteRawGrows(w, s.k); NoRecordWritten(w, DoWriteRaw(w, s.k), s); }
    else if s.WriteTrail? { WriteTrailGrows(w, s.k, s.recordId, s.now); }
    else if s.Commit? { CommitGrows(w, s.k); NothingWritten(w, DoCommit(w, s.k), s); }
    else {
      hide Do;
      if Sidelong(s) { SidelongSteps(w, s); } else { OtherTrail(w, s); }
      NothingWritten(w, Do(w, s), s);
    }
  }

  lemma OtherTrail(w: World, s: Step)
    requires s.Raise? || s.Load? || s.ReadTargetRaw? || s.ReadOwnRaw? || s.Abandon?
    ensures Do(w, s).db.raws == w.db.raws && Do(w, s).db.records == w.db.records
  {
    hide Allowed, Unlock, Fresh;
  }

  lemma ReachedNext(hash: Hash, steps: seq<Step>, s: Step)
    ensures Reached(hash, steps + [s]) == Do(Reached(hash, steps), s)
  {
    hide Do;
    RunAppend(Init(hash), steps, [s]);
  }

  /** Once a capture is stored it is stored for good, as it was. */
  lemma {:induction false} CapturesAreNeverRemoved(hash: Hash, steps: seq<Step>, n: nat)
    requires n <= |steps|
    ensures Extends(Reached(hash, steps[..n]).db.raws, Reached(hash, steps).db.raws)
    ensures Reached(hash, steps[..n]).db.records <= Reached(hash, steps).db.records
    decreases |steps|
  {
    hide Do, TrailOk;
    if n == |steps| {
      assert steps[..n] == steps;
    } else {
      var front := steps[..|steps| - 1];
      assert front[..n] == steps[..n] && front + [steps[|steps| - 1]] == steps;
      CapturesAreNeverRemoved(hash, front, n);
      ReachedTrail(hash, front);
      StepGrows(Reached(hash, front), steps[|steps| - 1]);
      ReachedNext(hash, front, steps[|steps| - 1]);
    }
  }

  /** The step that wrote a record, and the call it was. */
  lemma {:induction false} WhenWritten(hash: Hash, steps: seq<Step>, i: nat) returns (n: nat)
    requires i < |Reached(hash, steps).db.records|
    ensures n < |steps| && steps[n].WriteTrail? && |Reached(hash, steps[..n]).db.records| == i
    ensures var w, k, f := Reached(hash, steps[..n]), steps[n].k, Reached(hash, steps).db.records[i];
            && k in w.calls && w.calls[k].TrailOwed? && w.calls[k].own.Some? && w.calls[k].act < |w.past.acts|
            && var c := w.calls[k];
               f.act == c.act && f.record.entry == w.past.acts[c.act] && f.record.sourceRawIds == c.own.value + Default(c.target, [])
    decreases |steps|
  {
    hide Do, TrailOk;
    if steps != [] {
      var front, s := steps[..|steps| - 1], steps[|steps| - 1];
      var w := Reached(hash, front);
      assert front + [s] == steps;
      ReachedTrail(hash, front);
      StepGrows(w, s);
      ReachedNext(hash, front, s);
      if i < |w.db.records| {
        n := WhenWritten(hash, front, i);
        assert front[..n] == steps[..n];
      } else {
        n := |front|;
        assert steps[..n] == front;
      }
    }
  }

  /* ------------------------------------------------------------------ when the captures were read */

  /** What a call has read for its record it read in this step, or had before. */
  ghost predicate ReadsKept(w: World, w': World, s: Step, k: CallId) {
    k in w'.calls && w'.calls[k].TrailOwed? && (w'.calls[k].own.Some? || w'.calls[k].target.Some?) ==>
      && k in w.calls && w.calls[k].TrailOwed?
      && (|| w'.calls[k] == w.calls[k]
          || (s == ReadOwnRaw(k) && ReadsOwn(w, w'.calls[k], w.calls[k]))
          || (s == ReadTargetRaw(k) && ReadsTarget(w, w'.calls[k], w.calls[k])))
  }

  /** Call `c` came of call `b` by reading its own capture. */
  predicate ReadsOwn(w: World, c: Call, b: Call) {
    && b.TrailOwed? && c.TrailOwed? && b == c.(own := None) && c.act < |w.past.acts| && var e := w.past.acts[c.act];
    && c.own == Some(RawIds(w, e.decisionId)) && (e.act.MergeAct? ==> c.target.Some?)
  }

  predicate ReadsTarget(w: World, c: Call, b: Call) {
    && c.TrailOwed? && b == TrailOwed(c.act, None, None) && c.own.None? && c.act < |w.past.acts| && var e := w.past.acts[c.act];
    && e.act.MergeAct? && c.target == Some(RawIds(w, e.act.into))
  }

  lemma AsideReads(w: World, w': World, s: Step, k: CallId)
    requires Aside(w, w', s.k)
    ensures ReadsKept(w, w', s, k)
  {
    if w' != w && k in w'.calls && k != s.k {
      assert k in w'.calls - {s.k} && (w'.calls - {s.k})[k] == w'.calls[k];
      assert k in w.calls - {s.k};
    }
  }

  lemma CommitReads(w: World, s: Step, k: CallId)
    requires s.Commit?
    ensures ReadsKept(w, Do(w, s), s, k)
  {
    hide Allowed, Transform, Unlock, GrantActive, Rail.Owed, ReadsOwn, ReadsTarget;
  }

  lemma RawReads(w: World, s: Step, k: CallId)
    requires s.ReadOwnRaw? || s.ReadTargetRaw?
    ensures ReadsKept(w, Do(w, s), s, k)
  {
    hide RawIds;
  }

  lemma OtherReads(w: World, s: Step, k: CallId)
    requires s.Raise? || s.WriteRaw? || s.Load? || s.WriteTrail? || s.Abandon?
    ensures ReadsKept(w, Do(w, s), s, k)
  {
    hide Allowed, Unlock, Fresh, RawIds, ReadsOwn, ReadsTarget;
  }

  lemma StepReads(w: World, s: Step, k: CallId)
    ensures ReadsKept(w, Do(w, s), s, k)
  {
    hide Do, ReadsKept;
    if Sidelong(s) { SidelongSteps(w, s); AsideReads(w, Do(w, s), s, k); }
    else if s.Commit? { CommitReads(w, s, k); }
    else if s.ReadOwnRaw? || s.ReadTargetRaw? { RawReads(w, s, k); }
    else { OtherReads(w, s, k); }
  }

  /** The step in which a call read its own capture. */
  lemma {:induction false} WhenOwnRead(hash: Hash, steps: seq<Step>, k: CallId) returns (n: nat)
    requires var w := Reached(hash, steps); k in w.calls && w.calls[k].TrailOwed? && w.calls[k].own.Some?
    ensures n < |steps| && steps[n] == ReadOwnRaw(k)
    ensures var v := Reached(hash, steps[..n]); k in v.calls && ReadsOwn(v, Reached(hash, steps).calls[k], v.calls[k])
    decreases |steps|
  {
    hide Do, ReadsOwn, ReadsTarget;
    if steps != [] {
      var front, s := steps[..|steps| - 1], steps[|steps| - 1];
      var w := Reached(hash, front);
      assert front + [s] == steps;
      ReachedNext(hash, front, s);
      StepReads(w, s, k);
      if Reached(hash, steps).calls[k] == w.calls[k] {
        n := WhenOwnRead(hash, front, k);
        assert front[..n] == steps[..n];
      } else {
        n := |front|;
        assert steps[..n] == front;
        OwnIsNotTarget(w, Reached(hash, steps).calls[k], w.calls[k]);
      }
    }
  }

  lemma OwnIsNotTarget(w: World, c: Call, b: Call)
    requires c.TrailOwed? && c.own.Some?
    ensures !ReadsTarget(w, c, b)
  {
  }

  /** The step in which a merge read the capture of the decision merged into. */
  lemma {:induction false} WhenTargetRead(hash: Hash, steps: seq<Step>, k: CallId) returns (n: nat)
    requires var w := Reached(hash, steps); k in w.calls && w.calls[k].TrailOwed? && w.calls[k].target.Some? && w.calls[k].own.None?
    ensures n < |steps| && steps[n] == ReadTargetRaw(k)
    ensures var v := Reached(hash, steps[..n]); k in v.calls && ReadsTarget(v, Reached(hash, steps).calls[k], v.calls[k])
    decreases |steps|
  {
    hide Do, ReadsTarget;
    if steps != [] {
      var front, s := steps[..|steps| - 1], steps[|steps| - 1];
      var w := Reached(hash, front);
      assert front + [s] == steps;
      ReachedNext(hash, front, s);
      StepReads(w, s, k);
      if Reached(hash, steps).calls[k] == w.calls[k] {
        n := WhenTargetRead(hash, front, k);
        assert front[..n] == steps[..n];
      } else {
        n := |front|;
        assert steps[..n] == front;
      }
    }
  }

  lemma ActsOnward(hash: Hash, steps: seq<Step>, n: nat)
    requires n <= |steps|
    ensures Onward(Reached(hash, steps[..n]), Reached(hash, steps)) && Reached(hash, steps[..n]).past.acts <= Reached(hash, steps).past.acts
  {
    hide Inv;
    ReachedInv(hash, steps[..n]);
    RunSafe(Reached(hash, steps[..n]), steps[n..]);
    RunAppend(Init(hash), steps[..n], steps[n..]);
    assert steps[..n] + steps[n..] == steps;
  }

  /* ------------------------------------------------------------------ merges */

  /** The merge's record: written in step `n`, its own capture read in step `o` and the other's in step `t`, in this order. */
  lemma WhenMergeRead(hash: Hash, steps: seq<Step>, i: nat) returns (t: nat, o: nat, n: nat)
    requires i < |Reached(hash, steps).db.records| && Reached(hash, steps).db.records[i].record.entry.act.MergeAct?
    ensures t < o < n < |steps| && steps[n].WriteTrail? && steps[o] == ReadOwnRaw(steps[n].k) && steps[t] == ReadTargetRaw(steps[n].k)
    ensures var r, k, v := Reached(hash, steps).db.records[i].record, steps[n].k, Reached(hash, steps[..t]);
            && r.sourceRawIds == RawIds(Reached(hash, steps[..o]), r.entry.decisionId) + RawIds(v, r.entry.act.into)
            && k in v.calls && v.calls[k].TrailOwed? && v.calls[k].act < |v.past.acts| && v.past.acts[v.calls[k].act] == r.entry
  {
    hide Do, RawIds;
    n := WhenWritten(hash, steps, i);
    var k := steps[n].k;
    ActsOnward(hash, steps, n);
    o := WhenOwnRead(hash, steps[..n], k);
    assert steps[..n][..o] == steps[..o];
    ActsOnward(hash, steps[..n], o);
    t := WhenTargetRead(hash, steps[..o], k);
    assert steps[..o][..t] == steps[..t];
    ActsOnward(hash, steps[..o], t);
  }

  /** A merged decision has exactly one merge record, and it names its target.  It cites both captures if and only if the
      target's was stored when the merge read it, in step `t`, and its own when it read that, later, in step `o`. */
  lemma MergeIsOnRecord(hash: Hash, steps: seq<Step>, id: string) returns (i: nat, t: nat, o: nat, n: nat)
    requires var w := Reached(hash, steps); id in w.db.decisions && w.db.decisions[id].row.status == Merged && NothingMissing(w, id)
    ensures var db := Reached(hash, steps).db; var into := db.decisions[id].row.mergedInto;
            && i < |db.records| && into.Some? && var r := db.records[i].record;
            && r.entry.decisionId == id && r.entry.act == MergeAct(into.value)
            && forall j | 0 <= j < |db.records| && db.records[j].record.entry.decisionId == id && db.records[j].record.entry.act.MergeAct? :: j == i
    ensures t < o < n < |steps| && steps[n].WriteTrail? && steps[o] == ReadOwnRaw(steps[n].k) && steps[t] == ReadTargetRaw(steps[n].k)
    ensures var v := Reached(hash, steps[..t]); id in v.db.decisions && v.db.decisions[id].row.status == Merged
    ensures var db := Reached(hash, steps).db; var into := db.decisions[id].row.mergedInto.value;
            into in Reached(hash, steps[..t]).db.raws && id in Reached(hash, steps[..o]).db.raws <==>
              id in db.raws && into in db.raws && db.records[i].record.sourceRawIds == [db.raws[id].id, db.raws[into].id]
  {
    hide TrailOk, Do;
    i := OneMergeRecord(hash, steps, id);
    t, o, n := WhenMergeRead(hash, steps, i);
    CapturesAreNeverRemoved(hash, steps, t);
    CapturesAreNeverRemoved(hash, steps, o);
    ReachedTrail(hash, steps[..t]);
    OwedIsMerged(Reached(hash, steps[..t]), steps[n].k, id);
  }

  lemma OwedIsMerged(w: World, k: CallId, id: string)
    requires TrailOk(w) && k in w.calls && w.calls[k].TrailOwed? && w.calls[k].act < |w.past.acts|
    requires var e := w.past.acts[w.calls[k].act]; e.decisionId == id && e.act.MergeAct?
    ensures id in w.db.decisions && w.db.decisions[id].row.status == Merged
  {
    hide LedgerOk, CapturesOk;
    assert ActOk(w.db.decisions, w.past.acts[w.calls[k].act]);
  }

  /** So it cites both whenever both were stored at some moment before the merge was committed, as when the call began. */
  lemma MergeCitesBoth(hash: Hash, steps: seq<Step>, id: string, m: nat) returns (i: nat)
    requires var w := Reached(hash, steps); id in w.db.decisions && w.db.decisions[id].row.status == Merged && NothingMissing(w, id)
    requires Reached(hash, steps).db.decisions[id].row.mergedInto.Some?
    requires m <= |steps| && var earlier := Reached(hash, steps[..m]).db;
             && id in earlier.raws && Reached(hash, steps).db.decisions[id].row.mergedInto.value in earlier.raws
             && (id in earlier.decisions ==> earlier.decisions[id].row.status != Merged)
    ensures var db := Reached(hash, steps).db; var into := db.decisions[id].row.mergedInto.value;
            && i < |db.records| && db.records[i].record.entry.decisionId == id && db.records[i].record.entry.act == MergeAct(into)
            && id in db.raws && into in db.raws && db.records[i].record.sourceRawIds == [db.raws[id].id, db.raws[into].id]
  {
    hide Do, Onward;
    var t, o, n;
    i, t, o, n := MergeIsOnRecord(hash, steps, id);
    if t < m {
      assert steps[..m][..t] == steps[..t];
      ActsOnward(hash, steps[..m], t);
      MergedStays(Reached(hash, steps[..t]), Reached(hash, steps[..m]), id);
      assert false;
    }
    assert steps[..t][..m] == steps[..m] && steps[..o][..m] == steps[..m];
    CapturesAreNeverRemoved(hash, steps[..t], m);
    CapturesAreNeverRemoved(hash, steps[..o], m);
  }

  lemma MergedStays(w: World, w': World, id: string)
    requires Onward(w, w') && id in w.db.decisions && w.db.decisions[id].row.status == Merged
    ensures id in w'.db.decisions && w'.db.decisions[id].row.status == Merged
  {
  }

  /* ------------------------------------------------------------------ curates */

  /** Losses are noted once. */
  ghost predicate LossesStay(w: World, w': World) {
    forall a | a in w.past.lost :: a in w'.past.lost && w'.past.lost[a] == w.past.lost[a]
  }

  /** An act is noted by the winning commit of its call, and its first loss for want of a first read then or never. */
  ghost predicate ActsNoted(w: World, w': World, s: Step) {
    && w.past.acts <= w'.past.acts && |w'.past.acts| <= |w.past.acts| + 1
    && (|w'.past.acts| > |w.past.acts| ==> s.Commit? && Wins(w, s.k))
    && (forall a | a in w'.past.lost && w'.past.lost[a] == NothingRead && a < |w.past.acts| :: a in w.past.lost && w.past.lost[a] == NothingRead)
  }

  lemma CommitNotes(w: World, s: Step)
    requires s.Commit? && Inv(w) && LedgerOk(w)
    ensures LossesStay(w, Do(w, s)) && ActsNoted(w, Do(w, s), s)
  {
    hide Inv, Allowed, Transform, Unlock, GrantActive, LedgerOk;
    InRange(w);
  }

  lemma OtherNotes(w: World, s: Step)
    requires !Sidelong(s) && !s.Commit? && !s.WriteTrail? && !s.Abandon?
    ensures Do(w, s).past.acts == w.past.acts && Do(w, s).past.lost == w.past.lost
  {
    hide Allowed, Unlock, Fresh, RawIds;
  }

  lemma RecordNotes(w: World, s: Step)
    requires TrailOk(w) && (s.WriteTrail? || s.Abandon?)
    ensures LossesStay(w, Do(w, s)) && ActsNoted(w, Do(w, s), s)
  {
    hide ActsOk, CapturesOk, LedgerOk, Unlock;
    if s.k in w.calls && w.calls[s.k].TrailOwed? { OwedNow(w, s.k); }
  }

  lemma StepNotes(w: World, s: Step)
    requires Inv(w) && TrailOk(w)
    ensures LossesStay(w, Do(w, s)) && ActsNoted(w, Do(w, s), s)
  {
    hide Inv, Do;
    if Sidelong(s) { SidelongSteps(w, s); } else if s.Commit? { CommitNotes(w, s); } else if s.WriteTrail? || s.Abandon? { RecordNotes(w, s); } else { OtherNotes(w, s); }
  }

  /** The commit that did a curate act, and that the act was lost for want of a first read exactly if its call had found no
      row before its loop. */
  lemma {:induction false} WhenCurated(hash: Hash, steps: seq<Step>, a: nat) returns (n: nat)
    requires var p := Reached(hash, steps).past; a < |p.acts| && p.acts[a].act.CurateAct?
    ensures n < |steps| && steps[n].Commit? && |Reached(hash, steps[..n]).past.acts| == a
    ensures var w, k := Reached(hash, steps[..n]), steps[n].k; var p := Reached(hash, steps).past;
            && Wins(w, k) && w.calls[k].verb.Curate? && w.calls[k].id == p.acts[a].decisionId
            && (a in p.lost && p.lost[a] == NothingRead <==> w.calls[k].before.None?)
    decreases |steps|
  {
    hide Do, TrailOk, Inv;
    if steps != [] {
      var front, s := steps[..|steps| - 1], steps[|steps| - 1];
      var w := Reached(hash, front);
      assert front + [s] == steps;
      ReachedTrail(hash, front);
      StepNotes(w, s);
      ReachedNext(hash, front, s);
      if a < |w.past.acts| {
        n := WhenCurated(hash, front, a);
        assert front[..n] == steps[..n];
      } else {
        n := |front|;
        assert steps[..n] == front;
        CurateActIsCurate(w, s.k);
        BlindCuratesLeaveNoRecord(hash, front, s.k);
      }
    }
  }

  lemma CurateActIsCurate(w: World, k: CallId)
    requires Inv(w) && Wins(w, k)
    ensures var p := Do(w, Commit(k)).past; |p.acts| > |w.past.acts| && p.acts[|w.past.acts|].act.CurateAct? ==> w.calls[k].verb.Curate?
  {
    hide Inv, Allowed, Transform, Unlock, GrantActive, Grows;
    LoadedKnows(w, k);
  }

  /** In a run without crashes, once its caller is done a curate act has its record if and only if the read before its loop,
      ahead of the commit in step `n`, had found the row. */
  lemma CurateIsRecordedIff(hash: Hash, steps: seq<Step>, a: nat) returns (n: nat)
    requires forall s | s in steps :: !s.Abandon?
    requires var w := Reached(hash, steps); a < |w.past.acts| && w.past.acts[a].act.CurateAct? && !Owing(w.calls, a)
    ensures n < |steps| && steps[n].Commit? && |Reached(hash, steps[..n]).past.acts| == a
    ensures var w, k := Reached(hash, steps[..n]), steps[n].k;
            Wins(w, k) && w.calls[k].verb.Curate? && (Recorded(Reached(hash, steps).db.records, a) <==> w.calls[k].before.Some?)
  {
    n := WhenCurated(hash, steps, a);
    WhichActsAreOnRecord(hash, steps, a);
  }

  /* ------------------------------------------------------------------ no decision without its capture */

  ghost predicate CaptureOwed(w: World, id: string) {
    exists k :: k in w.calls && w.calls[k].RawOwed? && w.calls[k].id == id
  }

  /** The capture is stored, about to be, or died with its raiser. */
  ghost predicate Captured(w: World, id: string) {
    id in w.db.raws || id in w.past.uncaptured || CaptureOwed(w, id)
  }

  ghost predicate AllCaptured(w: World) {
    forall id {:trigger Captured(w, id)} | id in w.db.decisions :: Captured(w, id)
  }

  /** No raiser got rid of its debt, and no decision came. */
  ghost predicate SameRaisers(w: World, w': World) {
    && w'.db.decisions.Keys == w.db.decisions.Keys && w'.db.raws == w.db.raws && w'.past.uncaptured == w.past.uncaptured
    && forall k | k in w.calls && w.calls[k].RawOwed? :: k in w'.calls && w'.calls[k] == w.calls[k]
  }

  lemma SameRaisersCaptured(w: World, w': World)
    requires AllCaptured(w) && SameRaisers(w, w')
    ensures AllCaptured(w')
  {
    forall id | id in w'.db.decisions ensures Captured(w', id) {
      assert Captured(w, id);
      if CaptureOwed(w, id) {
        var k :| k in w.calls && w.calls[k].RawOwed? && w.calls[k].id == id;
        assert k in w'.calls && w'.calls[k] == w.calls[k];
      }
    }
  }

  lemma AsideRaisers(w: World, w': World, k: CallId)
    requires Aside(w, w', k)
    ensures SameRaisers(w, w')
  {
    forall j | j in w.calls && w.calls[j].RawOwed? ensures j in w'.calls && w'.calls[j] == w.calls[j] {
      if w' != w {
        assert j != k && j in w.calls - {k} && (w.calls - {k})[j] == w.calls[j];
        assert j in w'.calls - {k};
      }
    }
  }

  lemma CommitRaisers(w: World, k: CallId)
    ensures SameRaisers(w, DoCommit(w, k))
  {
    hide Allowed, Transform, Unlock, GrantActive, Owed;
  }

  lemma LoadRaisers(w: World, k: CallId, now: int)
    ensures SameRaisers(w, DoLoad(w, k, now))
  {
    hide Allowed, Unlock;
  }

  lemma RecordRaisers(w: World, k: CallId, recordId: string, now: int)
    ensures SameRaisers(w, DoWriteTrail(w, k, recordId, now))
  {
    hide Unlock, RawIds;
  }

  lemma ReadRaisers(w: World, k: CallId)
    ensures SameRaisers(w, DoReadTargetRaw(w, k)) && SameRaisers(w, DoReadOwnRaw(w, k))
  {
    hide RawIds;
  }

  lemma RaiseCaptured(w: World, k: CallId, id: string, input: RaiseInput, rawId: string, now: int)
    requires AllCaptured(w) && k !in w.calls
    ensures AllCaptured(DoRaise(w, k, id, input, rawId, now))
  {
    hide Fresh;
    var w' := DoRaise(w, k, id, input, rawId, now);
    forall j | j in w'.db.decisions ensures Captured(w', j) {
      if j in w.db.decisions {
        assert Captured(w, j);
        if CaptureOwed(w, j) {
          var i :| i in w.calls && w.calls[i].RawOwed? && w.calls[i].id == j;
          assert i in w'.calls && w'.calls[i] == w.calls[i];
        }
      } else {
        assert k in w'.calls && w'.calls[k].RawOwed? && w'.calls[k].id == j;
      }
    }
  }

  /** The capture is stored, or its raiser dies: either way the debt is gone. */
  lemma DebtGone(w: World, w': World, k: CallId)
    requires AllCaptured(w) && (w' == DoWriteRaw(w, k) || w' == DoAbandon(w, k))
    ensures AllCaptured(w')
  {
    hide Unlock;
    forall j | j in w'.db.decisions ensures Captured(w', j) {
      assert Captured(w, j);
      if CaptureOwed(w, j) {
        var i :| i in w.calls && w.calls[i].RawOwed? && w.calls[i].id == j;
        if i != k { assert i in w'.calls && w'.calls[i] == w.calls[i]; }
      }
    }
  }

  lemma StepCaptured(w: World, s: Step)
    requires AllCaptured(w)
    ensures AllCaptured(Do(w, s))
  {
    hide AllCaptured, SameRaisers, DoRaise, DoWriteRaw, DoAbandon, DoCommit, DoLoad, DoWriteTrail, DoReadTargetRaw, DoReadOwnRaw;
    if Sidelong(s) { hide Do; SidelongSteps(w, s); AsideRaisers(w, Do(w, s), s.k); SameRaisersCaptured(w, Do(w, s)); }
    else {
      match s
      case Raise(k, id, input, rawId, now) => if k !in w.calls { RaiseCaptured(w, k, id, input, rawId, now); }
      case WriteRaw(k) => DebtGone(w, DoWriteRaw(w, k), k);
      case Abandon(k) => DebtGone(w, DoAbandon(w, k), k);
      case Commit(k) => CommitRaisers(w, k); SameRaisersCaptured(w, DoCommit(w, k));
      case Load(k, now) => LoadRaisers(w, k, now); SameRaisersCaptured(w, DoLoad(w, k, now));
      case ReadTargetRaw(k) => ReadRaisers(w, k); SameRaisersCaptured(w, DoReadTargetRaw(w, k));
      case ReadOwnRaw(k) => ReadRaisers(w, k); SameRaisersCaptured(w, DoReadOwnRaw(w, k));
      case WriteTrail(k, recordId, now) => RecordRaisers(w, k, recordId, now); SameRaisersCaptured(w, DoWriteTrail(w, k, recordId, now));
    }
  }

  lemma {:induction false} RunCaptured(w: World, steps: seq<Step>)
    requires AllCaptured(w)
    ensures AllCaptured(Run(w, steps))
    decreases |steps|
  {
    hide AllCaptured, Do;
    if steps != [] {
      StepCaptured(w, steps[0]);
      RunCaptured(Do(w, steps[0]), steps[1..]);
    }
  }

  lemma {:induction false} NobodyDies(w: World, steps: seq<Step>)
    requires w.past.uncaptured == {} && forall s | s in steps :: !s.Abandon?
    ensures Run(w, steps).past.uncaptured == {}
    decreases |steps|
  {
    hide Do;
    if steps != [] {
      assert steps[0] in steps;
      LivesOn(w, steps[0]);
      NobodyDies(Do(w, steps[0]), steps[1..]);
    }
  }

  lemma LivesOn(w: World, s: Step)
    requires !s.Abandon?
    ensures Do(w, s).past.uncaptured == w.past.uncaptured
  {
    hide DoCommit, DoLoad, DoWriteTrail, SameRaisers;
    if Sidelong(s) { hide Do; SidelongSteps(w, s); }
    else if s.Commit? { CommitRaisers(w, s.k); SameDead(w, DoCommit(w, s.k)); }
    else if s.Load? { LoadRaisers(w, s.k, s.now); SameDead(w, DoLoad(w, s.k, s.now)); }
    else if s.WriteTrail? { RecordRaisers(w, s.k, s.recordId, s.now); SameDead(w, DoWriteTrail(w, s.k, s.recordId, s.now)); }
  }

  lemma SameDead(w: World, w': World)
    requires SameRaisers(w, w')
    ensures w'.past.uncaptured == w.past.uncaptured
  {
  }

  /** In a run without crashes every decision has its capture as soon as its raiser is done. */
  lemma EveryDecisionIsCaptured(hash: Hash, steps: seq<Step>, id: string)
    requires (forall s | s in steps :: !s.Abandon?) && id in Reached(hash, steps).db.decisions && !CaptureOwed(Reached(hash, steps), id)
    ensures id in Reached(hash, steps).db.raws
  {
    RunCaptured(Init(hash), steps);
    NobodyDies(Init(hash), steps);
    assert Captured(Reached(hash, steps), id);
  }

  /** The trail rebuilds the decision, once nothing of it is missing: it has its capture, which still holds what was raised,
      word for word, and replaying the records over the class it was raised with gives the class it has now. */
  lemma TrailRebuildsTheDecision(hash: Hash, steps: seq<Step>, id: string)
    requires id in Reached(hash, steps).db.decisions && NothingMissing(Reached(hash, steps), id)
    ensures var db := Reached(hash, steps).db;
            && id in db.raws && var d, raw := db.decisions[id].row, db.raws[id];
            && raw.title == d.title && raw.context == d.context && raw.options == d.options && raw.contextRefs == d.contextRefs
            && raw.raisedBy == d.raisedBy && raw.raisedAt == d.createdAt
            && Replay(raw.cls, db.records, id) == Some(d.cls)
  {
    RunCaptured(Init(hash), steps);
    assert Captured(Reached(hash, steps), id);
    CaptureAndReplay(hash, steps, id);
  }
}
