/** Editing the staged actions of a thread: one list, changed in place, entries never removed. */
module StagedActions {
  import opened Substrate

  datatype Status = Staged | Revised | Retracted | Committed

  datatype Action = Action(id: string, kind: string, status: Status, proposer: string, timestamp: int, payload: string, revisionOf: Option<string>)

  datatype Op = Stage(kind: string, payload: string) | Revise(id: string, payload: string) | Retract(id: string)

  datatype Verdict = Applied | NoSuchAction(id: string) | NotStaged(id: string, status: Status)

  /* ------------------------------------------------------------------ ids */

  const DIGITS := "0123456789"

  function Decimal(n: nat): string {
    if n < 10 then [DIGITS[n]] else Decimal(n / 10) + [DIGITS[n % 10]]
  }

  lemma {:induction false} DecimalIdentifies(m: nat, n: nat)
    ensures Decimal(m) == Decimal(n) ==> m == n
    decreases m
  {
    LastDigit(m);
    LastDigit(n);
    if Decimal(m) == Decimal(n) && m >= 10 && n >= 10 {
      assert Decimal(m)[..|Decimal(m)| - 1] == Decimal(m / 10) && Decimal(n)[..|Decimal(n)| - 1] == Decimal(n / 10);
      DecimalIdentifies(m / 10, n / 10);
    }
  }

  lemma LastDigit(n: nat)
    ensures |Decimal(n)| > 0 && Decimal(n)[|Decimal(n)| - 1] == DIGITS[n % 10] && (|Decimal(n)| == 1 <==> n < 10)
    ensures forall a, b | 0 <= a < b < 10 :: DIGITS[a] != DIGITS[b]
  {
    if n >= 10 { LongerThanOne(n); }
  }

  lemma LongerThanOne(n: nat)
    requires n >= 10
    ensures |Decimal(n)| >= 2
  {
    assert |Decimal(n / 10)| >= 1;
  }

  function IdAt(k: nat): string {
    "action-" + Decimal(k + 1)
  }

  lemma IdsIdentify(j: nat, k: nat)
    ensures IdAt(j) == IdAt(k) ==> j == k
  {
    if IdAt(j) == IdAt(k) {
      assert IdAt(j)[7..] == Decimal(j + 1) && IdAt(k)[7..] == Decimal(k + 1);
      DecimalIdentifies(j + 1, k + 1);
    }
  }

  /* ------------------------------------------------------------------ one edit */

  /** The first entry with the id, or the length of the list. */
  function Find(actions: seq<Action>, id: string): (k: nat)
    ensures k <= |actions| && (k < |actions| ==> actions[k].id == id) && forall j | 0 <= j < k :: actions[j].id != id
  {
    if actions == [] || actions[0].id == id then 0 else 1 + Find(actions[1..], id)
  }

  function Target(op: Op): string {
    match op
    case Stage(_, _) => ""
    case Revise(id, _) => id
    case Retract(id) => id
  }

  function Check(actions: seq<Action>, op: Op): Verdict {
    if op.Stage? then Applied
    else
      var k := Find(actions, Target(op));
      if k == |actions| then NoSuchAction(Target(op))
      else if actions[k].status != Staged then NotStaged(Target(op), actions[k].status)
      else Applied
  }

  function Edited(actions: seq<Action>, op: Op, proposer: string, now: int): seq<Action>
    requires Check(actions, op) == Applied
  {
    match op
    case Stage(kind, payload) => actions + [Action(IdAt(|actions|), kind, Staged, proposer, now, payload, None)]
    case Revise(id, payload) =>
      var k := Find(actions, id);
      actions[k := actions[k].(status := Revised)] + [Action(IdAt(|actions|), actions[k].kind, Staged, proposer, now, payload, Some(actions[k].id))]
    case Retract(id) =>
      var k := Find(actions, id);
      actions[k := actions[k].(status := Retracted)]
  }

  /** The edits up to the first one refused. */
  function Outcome(actions: seq<Action>, ops: seq<Op>, proposer: string, now: int): (seq<Action>, Verdict)
    decreases |ops|
  {
    if ops == [] then (actions, Applied)
    else if Check(actions, ops[0]) != Applied then (actions, Check(actions, ops[0]))
    else Outcome(Edited(actions, ops[0], proposer, now), ops[1..], proposer, now)
  }

  /* ------------------------------------------------------------------ a call as its caller sees it */

  predicate First(actions: seq<Action>, id: string, k: nat) {
    k < |actions| && actions[k].id == id && forall j | 0 <= j < k :: actions[j].id != id
  }

  /** An edit is turned away if no entry has the id it names, or the first that has is no longer staged. */
  ghost predicate Refuses(actions: seq<Action>, op: Op, verdict: Verdict) {
    !op.Stage? && var id := op.id;
    if forall j | 0 <= j < |actions| :: actions[j].id != id then verdict == NoSuchAction(id)
    else exists k: nat :: First(actions, id, k) && actions[k].status != Staged && verdict == NotStaged(id, actions[k].status)
  }

  /** The first entry with the id is staged, and is settled; the others stay. */
  predicate Settles(actions: seq<Action>, next: seq<Action>, id: string, status: Status, k: nat)
    requires |actions| <= |next|
  {
    && First(actions, id, k) && actions[k].status == Staged && next[k] == actions[k].(status := status)
    && forall j | 0 <= j < |actions| && j != k :: next[j] == actions[j]
  }

  /** An edit adds an entry at the end, settles the first entry with the id it names, which is staged, or does both. */
  ghost predicate Applies(actions: seq<Action>, op: Op, proposer: string, now: int, next: seq<Action>) {
    var n := |actions|;
    match op
    case Stage(kind, payload) =>
      |next| == n + 1 && next[..n] == actions && next[n] == Action("action-" + Decimal(n + 1), kind, Staged, proposer, now, payload, None)
    case Revise(id, payload) =>
      && |next| == n + 1 && (exists k: nat :: Settles(actions, next, id, Revised, k))
      && forall k: nat | Settles(actions, next, id, Revised, k) ::
           next[n] == Action("action-" + Decimal(n + 1), actions[k].kind, Staged, proposer, now, payload, Some(id))
    case Retract(id) =>
      |next| == n && exists k: nat :: Settles(actions, next, id, Retracted, k)
  }

  /** The lists a call goes through: one edit applied after another, to the end or to the first that is refused. */
  ghost predicate GoesThrough(lists: seq<seq<Action>>, ops: seq<Op>, proposer: string, now: int, verdict: Verdict) {
    && 0 < |lists| <= |ops| + 1
    && (forall i | 0 <= i < |lists| - 1 :: Applies(lists[i], ops[i], proposer, now, lists[i + 1]))
    && if |lists| == |ops| + 1 then verdict == Applied else Refuses(lists[|lists| - 1], ops[|lists| - 1], verdict)
  }

  lemma EditMeans(actions: seq<Action>, op: Op, proposer: string, now: int)
    ensures if Check(actions, op) == Applied then Applies(actions, op, proposer, now, Edited(actions, op, proposer, now))
            else Refuses(actions, op, Check(actions, op))
  {
    if !op.Stage? {
      var k := Find(actions, Target(op));
      if k < |actions| { assert First(actions, Target(op), k); }
      if Check(actions, op) == Applied { assert Settles(actions, Edited(actions, op, proposer, now), op.id, if op.Revise? then Revised else Retracted, k); }
    }
  }

  lemma {:induction false} OutcomeGoesThrough(actions: seq<Action>, ops: seq<Op>, proposer: string, now: int) returns (lists: seq<seq<Action>>)
    ensures var (last, verdict) := Outcome(actions, ops, proposer, now);
            GoesThrough(lists, ops, proposer, now, verdict) && lists[0] == actions && lists[|lists| - 1] == last
    decreases |ops|
  {
    hide Check, Edited, Applies, Refuses;
    lists := [actions];
    if ops != [] {
      EditMeans(actions, ops[0], proposer, now);
      if Check(actions, ops[0]) == Applied {
        var rest := OutcomeGoesThrough(Edited(actions, ops[0], proposer, now), ops[1..], proposer, now);
        lists := lists + rest;
        forall i | 0 <= i < |lists| - 1 ensures Applies(lists[i], ops[i], proposer, now, lists[i + 1]) {
          if i > 0 { assert Applies(rest[i - 1], ops[1..][i - 1], proposer, now, rest[i]); }
        }
      }
    }
  }

  class Thread {
    var convergenceActions: seq<Action>

    constructor ()
      ensures convergenceActions == []
    {
      convergenceActions := [];
    }

    /** `applyStagedActionOps`: an edit that is refused throws, and leaves the ones before it applied. */
    method ApplyStagedActionOps(ops: seq<Op>, proposer: string, now: int) returns (verdict: Verdict)
      modifies this
      ensures exists lists :: GoesThrough(lists, ops, proposer, now, verdict) && lists[0] == old(convergenceActions)
                              && lists[|lists| - 1] == convergenceActions
      ensures (convergenceActions, verdict) == Outcome(old(convergenceActions), ops, proposer, now)
    {
      ghost var lists := OutcomeGoesThrough(convergenceActions, ops, proposer, now);
      hide GoesThrough;
      for i := 0 to |ops|
        invariant Outcome(old(convergenceActions), ops, proposer, now) == Outcome(convergenceActions, ops[i..], proposer, now)
      {
        var op := ops[i];
        assert ops[i..][0] == op && ops[i..][1..] == ops[i + 1..];
        match op
        case Stage(kind, payload) =>
          convergenceActions := convergenceActions + [Action(IdAt(|convergenceActions|), kind, Staged, proposer, now, payload, None)];
        case Revise(id, payload) =>
          var k := Find(convergenceActions, id);
          if k == |convergenceActions| { return NoSuchAction(id); }
          var prior := convergenceActions[k];
          if prior.status != Staged { return NotStaged(id, prior.status); }
          convergenceActions := convergenceActions[k := prior.(status := Revised)];
          convergenceActions := convergenceActions + [Action(IdAt(|convergenceActions|), prior.kind, Staged, proposer, now, payload, Some(prior.id))];
        case Retract(id) =>
          var k := Find(convergenceActions, id);
          if k == |convergenceActions| { return NoSuchAction(id); }
          if convergenceActions[k].status != Staged { return NotStaged(id, convergenceActions[k].status); }
          convergenceActions := convergenceActions[k := convergenceActions[k].(status := Retracted)];
      }
      assert ops[|ops|..] == [];
      verdict := Applied;
    }
  }

  /* ------------------------------------------------------------------ what every history keeps */

  /** A list some sequence of edits makes from nothing; a refused edit changes nothing. */
  datatype Edit = Edit(op: Op, proposer: string, now: int)

  function Play(edits: seq<Edit>): seq<Action>
    decreases |edits|
  {
    if edits == [] then []
    else
      var before, e := Play(edits[..|edits| - 1]), edits[|edits| - 1];
      if Check(before, e.op) == Applied then Edited(before, e.op, e.proposer, e.now) else before
  }

  predicate NumberedInOrder(actions: seq<Action>) {
    forall k | 0 <= k < |actions| :: actions[k].id == IdAt(k)
  }

  /** Entry `k` revises entry `j`. */
  predicate Revises(actions: seq<Action>, k: nat, j: nat) {
    j < k < |actions| && actions[k].revisionOf == Some(IdAt(j)) && actions[j].status == Revised && actions[k].kind == actions[j].kind
  }

  ghost predicate HasOriginal(actions: seq<Action>, k: nat) {
    exists j: nat :: Revises(actions, k, j)
  }

  ghost predicate HasRevision(actions: seq<Action>, j: nat) {
    exists k: nat :: Revises(actions, k, j)
  }

  /** Every revision descends from one earlier entry of its kind, marked revised; every entry so marked has a
      revision; and no entry has two. */
  ghost predicate LineageOk(actions: seq<Action>) {
    && NumberedInOrder(actions)
    && (forall k {:trigger HasOriginal(actions, k)} | 0 <= k < |actions| && actions[k].revisionOf.Some? :: HasOriginal(actions, k))
    && (forall j {:trigger HasRevision(actions, j)} | 0 <= j < |actions| && actions[j].status == Revised :: HasRevision(actions, j))
    && (forall k, l {:trigger actions[k].revisionOf, actions[l].revisionOf} | 0 <= k < l < |actions| && actions[k].revisionOf.Some? ::
          actions[k].revisionOf != actions[l].revisionOf)
  }

  /** Revisions stay revisions while entries are only added, or settled. */
  lemma RevisionsStay(actions: seq<Action>, next: seq<Action>)
    requires |actions| <= |next| && forall k | 0 <= k < |actions| :: next[k] == actions[k].(status := next[k].status)
    requires forall k | 0 <= k < |actions| && actions[k].status == Revised :: next[k] == actions[k]
    ensures forall k: nat {:trigger HasOriginal(next, k)} | HasOriginal(actions, k) :: HasOriginal(next, k)
    ensures forall j: nat {:trigger HasRevision(next, j)} | HasRevision(actions, j) :: HasRevision(next, j)
  {
    hide IdAt;
    forall k: nat | HasOriginal(actions, k) ensures HasOriginal(next, k) {
      var j: nat :| Revises(actions, k, j);
      assert Revises(next, k, j);
    }
    forall j: nat | HasRevision(actions, j) ensures HasRevision(next, j) {
      var k: nat :| Revises(actions, k, j);
      assert Revises(next, k, j);
    }
  }

  lemma StageKeepsLineage(actions: seq<Action>, a: Action)
    requires LineageOk(actions) && a.id == IdAt(|actions|) && a.revisionOf == None && a.status == Staged
    ensures LineageOk(actions + [a])
  {
    hide IdAt, HasOriginal, HasRevision;
    var next := actions + [a];
    RevisionsStay(actions, next);
    forall k | 0 <= k < |next| && next[k].revisionOf.Some? ensures HasOriginal(next, k) { assert HasOriginal(actions, k); }
    forall j | 0 <= j < |next| && next[j].status == Revised ensures HasRevision(next, j) { assert HasRevision(actions, j); }
  }

  lemma RetractKeepsLineage(actions: seq<Action>, t: nat)
    requires LineageOk(actions) && t < |actions| && actions[t].status == Staged
    ensures LineageOk(actions[t := actions[t].(status := Retracted)])
  {
    hide IdAt, HasOriginal, HasRevision;
    var next := actions[t := actions[t].(status := Retracted)];
    RevisionsStay(actions, next);
    forall k | 0 <= k < |next| && next[k].revisionOf.Some? ensures HasOriginal(next, k) { assert HasOriginal(actions, k); }
    forall j | 0 <= j < |next| && next[j].status == Revised ensures HasRevision(next, j) { assert HasRevision(actions, j); }
  }

  lemma NotRevisedYet(actions: seq<Action>, k: nat, t: nat)
    requires LineageOk(actions) && k < |actions| && t < |actions| && actions[t].status == Staged
    ensures actions[k].revisionOf != Some(IdAt(t))
  {
    hide IdAt;
    if actions[k].revisionOf.Some? {
      assert HasOriginal(actions, k);
      var j: nat :| Revises(actions, k, j);
      IdsIdentify(j, t);
    }
  }

  lemma ReviseKeepsLineage(actions: seq<Action>, t: nat, a: Action)
    requires LineageOk(actions) && t < |actions| && actions[t].status == Staged
    requires a.id == IdAt(|actions|) && a.revisionOf == Some(IdAt(t)) && a.status == Staged && a.kind == actions[t].kind
    ensures LineageOk(actions[t := actions[t].(status := Revised)] + [a])
  {
    hide IdAt, HasOriginal, HasRevision;
    var next := actions[t := actions[t].(status := Revised)] + [a];
    RevisionsStay(actions, next);
    NewRevision(next, t);
    forall k | 0 <= k < |next| && next[k].revisionOf.Some? ensures HasOriginal(next, k) { if k < |actions| { assert HasOriginal(actions, k); } }
    forall j | 0 <= j < |next| && next[j].status == Revised ensures HasRevision(next, j) { if j != t { assert HasRevision(actions, j); } }
    forall k, l | 0 <= k < l < |next| && next[k].revisionOf.Some? ensures next[k].revisionOf != next[l].revisionOf {
      NotRevisedYet(actions, k, t);
    }
  }

  lemma NewRevision(next: seq<Action>, t: nat)
    requires t < |next| - 1 && next[t].status == Revised && next[|next| - 1].revisionOf == Some(IdAt(t)) && next[|next| - 1].kind == next[t].kind
    ensures HasOriginal(next, |next| - 1) && HasRevision(next, t)
  {
    assert Revises(next, |next| - 1, t);
  }

  /** The lineage is right after any sequence of edits whatever. */
  lemma {:induction false} LineageHolds(edits: seq<Edit>)
    ensures LineageOk(Play(edits))
    decreases |edits|
  {
    if edits != [] {
      var before, e := Play(edits[..|edits| - 1]), edits[|edits| - 1];
      LineageHolds(edits[..|edits| - 1]);
      if Check(before, e.op) == Applied {
        match e.op
        case Stage(kind, payload) => StageKeepsLineage(before, Action(IdAt(|before|), kind, Staged, e.proposer, e.now, payload, None));
        case Revise(id, payload) =>
          var t := Find(before, id);
          ReviseKeepsLineage(before, t, Action(IdAt(|before|), before[t].kind, Staged, e.proposer, e.now, payload, Some(before[t].id)));
        case Retract(id) => RetractKeepsLineage(before, Find(before, id));
      }
    }
  }

  /** An edit never shortens the list, never touches an entry that is no longer staged, and changes nothing of
      the others but the status of the one it names.  What it adds is staged, and is the caller's. */
  lemma EditsOnlyAddAndSettle(actions: seq<Action>, op: Op, proposer: string, now: int)
    requires Check(actions, op) == Applied
    ensures var next := Edited(actions, op, proposer, now);
            && |actions| <= |next| <= |actions| + 1
            && (forall k | 0 <= k < |actions| :: next[k] == actions[k].(status := next[k].status))
            && (forall k | 0 <= k < |actions| && actions[k].status != Staged :: next[k] == actions[k])
            && (forall j, k | 0 <= j < k < |actions| :: next[j] == actions[j] || next[k] == actions[k])
            && (forall k | 0 <= k < |actions| && next[k] != actions[k] ::
                  next[k].id == Target(op) && next[k].status == if op.Revise? then Revised else Retracted)
            && (!op.Stage? ==> exists k :: 0 <= k < |actions| && actions[k].id == Target(op) && next[k] != actions[k])
            && (|next| > |actions| <==> !op.Retract?)
            && (|next| > |actions| ==>
                  var a := next[|actions|];
                  a.status == Staged && a.proposer == proposer && a.timestamp == now && a.payload == op.payload && (op.Stage? ==> a.kind == op.kind))
  {
    if !op.Stage? { assert Edited(actions, op, proposer, now)[Find(actions, Target(op))] != actions[Find(actions, Target(op))]; }
  }

  /* ------------------------------------------------------------------ how many are staged */

  function StagedCount(actions: seq<Action>): nat {
    if actions == [] then 0 else StagedCount(actions[..|actions| - 1]) + if actions[|actions| - 1].status == Staged then 1 else 0
  }

  /** The accepted edits of one sort. */
  function Accepted(edits: seq<Edit>, stages: bool): nat
    decreases |edits|
  {
    if edits == [] then 0
    else
      var before, e := edits[..|edits| - 1], edits[|edits| - 1];
      Accepted(before, stages) + if Check(Play(before), e.op) == Applied && (if stages then e.op.Stage? else e.op.Retract?) then 1 else 0
  }

  lemma {:induction false} SettlingOneLess(actions: seq<Action>, k: nat, a: Action)
    requires k < |actions| && actions[k].status == Staged && a.status != Staged
    ensures StagedCount(actions) == StagedCount(actions[k := a]) + 1
    decreases |actions|
  {
    var n := |actions| - 1;
    if k == n {
      assert actions[k := a][..n] == actions[..n];
    } else {
      assert actions[k := a][..n] == actions[..n][k := a];
      SettlingOneLess(actions[..n], k, a);
    }
  }

  lemma AddingOne(actions: seq<Action>, a: Action)
    ensures StagedCount(actions + [a]) == StagedCount(actions) + if a.status == Staged then 1 else 0
  {
    assert (actions + [a])[..|actions|] == actions;
  }

  /** The staged entries number the stages less the retracts: a revision takes one away and puts one back. */
  lemma {:induction false} StagedIsStagesLessRetracts(edits: seq<Edit>)
    ensures StagedCount(Play(edits)) + Accepted(edits, false) == Accepted(edits, true)
    decreases |edits|
  {
    if edits != [] {
      var before, e := Play(edits[..|edits| - 1]), edits[|edits| - 1];
      StagedIsStagesLessRetracts(edits[..|edits| - 1]);
      if Check(before, e.op) == Applied {
        match e.op
        case Stage(kind, payload) => AddingOne(before, Action(IdAt(|before|), kind, Staged, e.proposer, e.now, payload, None));
        case Revise(id, payload) =>
          var t := Find(before, id);
          SettlingOneLess(before, t, before[t].(status := Revised));
          AddingOne(before[t := before[t].(status := Revised)], Action(IdAt(|before|), before[t].kind, Staged, e.proposer, e.now, payload, Some(before[t].id)));
        case Retract(id) => SettlingOneLess(before, Find(before, id), before[Find(before, id)].(status := Retracted));
      }
    }
  }

  function Edits(ops: seq<Op>, proposer: string, now: int): seq<Edit> {
    if ops == [] then [] else [Edit(ops[0], proposer, now)] + Edits(ops[1..], proposer, now)
  }

  lemma PlayNext(edits: seq<Edit>, e: Edit)
    ensures Play(edits + [e]) == if Check(Play(edits), e.op) == Applied then Edited(Play(edits), e.op, e.proposer, e.now) else Play(edits)
  {
    assert (edits + [e])[..|edits|] == edits;
  }

  lemma EditsOfFirst(ops: seq<Op>, m: nat, proposer: string, now: int)
    requires m < |ops|
    ensures Edits(ops[..m + 1], proposer, now) == [Edit(ops[0], proposer, now)] + Edits(ops[1..][..m], proposer, now)
  {
    assert ops[..m + 1][1..] == ops[1..][..m];
  }

  /** A call's outcome is the edits it got through: so what holds of every play holds of the list after every
      call, whether the call threw or not. */
  lemma {:induction false} OutcomeIsPlay(edits: seq<Edit>, ops: seq<Op>, proposer: string, now: int) returns (n: nat)
    ensures n <= |ops| && Outcome(Play(edits), ops, proposer, now).0 == Play(edits + Edits(ops[..n], proposer, now))
    ensures Outcome(Play(edits), ops, proposer, now).1 == Applied <==> n == |ops|
    decreases |ops|
  {
    hide Check, Edited, Play;
    if ops == [] || Check(Play(edits), ops[0]) != Applied {
      n := 0;
      assert edits + Edits(ops[..0], proposer, now) == edits;
    } else {
      var e := Edit(ops[0], proposer, now);
      PlayNext(edits, e);
      var m := OutcomeIsPlay(edits + [e], ops[1..], proposer, now);
      n := m + 1;
      EditsOfFirst(ops, m, proposer, now);
      assert (edits + [e]) + Edits(ops[1..][..m], proposer, now) == edits + Edits(ops[..n], proposer, now);
    }
  }
}
