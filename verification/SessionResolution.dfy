/** What a session resolves to: exactly when its pointer row is right, and what a restart then finds. */
module SessionResolution {
  import opened Substrate
  import opened Agents
  import opened Registry
  import opened SessionIndex

  /** `getAgentForSession`: the map in memory, else the pointer row and then the agent row. */
  function Resolve(w: World, s: string): Option<string> {
    if s in w.sessions then if w.sessions[s] in w.agents then Some(w.sessions[s]) else None
    else if s in w.bindings && w.bindings[s] in w.agents && !w.agents[w.bindings[s]].row.archived then Some(w.bindings[s])
    else None
  }

  /** The pointer row of `s` names the agent exactly if the agent lists the session. */
  predicate Right(w: World, a: string, s: string)
    requires a in w.agents
  {
    (s in w.bindings && w.bindings[s] == a) <==> s in w.agents[a].row.registered
  }

  /* ------------------------------------------------------------------ exactly when it is right */

  /** How often a session came onto the list, or went off it. */
  function Changes(lists: seq<seq<string>>, s: string): nat {
    if lists == [] then 0
    else
      var n := |lists| - 1;
      Changes(lists[..n], s) + if (s in lists[n]) != (n > 0 && s in lists[n - 1]) then 1 else 0
  }

  lemma {:induction false} ChangesTell(lists: seq<seq<string>>, s: string)
    ensures lists != [] ==> (s in lists[|lists| - 1] <==> Changes(lists, s) % 2 == 1)
    decreases |lists|
  {
    if lists != [] {
      var front := lists[..|lists| - 1];
      ChangesTell(front, s);
      if front != [] { assert front[|front| - 1] == lists[|lists| - 2]; }
    }
  }

  /** The changes of the agent's list that the pointer row of `s` had seen when it was last written for it: none, if it was
      last written for another agent, or never. */
  function ChangesShown(w: World, a: string, s: string): nat {
    if s in w.past.wrote && w.past.wrote[s].0 == a && a in w.past.lists && w.past.wrote[s].1 < |w.past.lists[a]|
    then Changes(w.past.lists[a][..w.past.wrote[s].1 + 1], s) else 0
  }

  lemma ReachedLists(steps: seq<Step>, a: string)
    requires a in Reached(steps).agents
    ensures var w := Reached(steps); a in w.past.lists && w.past.lists[a] != [] && w.past.lists[a][|w.past.lists[a]| - 1] == w.agents[a].row.registered
  {
    hide RowsOk, ClearOk;
    ReachedIndex(steps);
    var x := IndexOf(Reached(steps));
    assert a in x.now && ListsOk(x, a);
  }

  /** A pointer row shows an agent's list as it stood at the version it was last written from. */
  lemma PointerShowsTheListWritten(steps: seq<Step>, a: string, s: string)
    requires a in Reached(steps).agents
    ensures var w := Reached(steps);
            (s in w.bindings && w.bindings[s] == a) <==>
              s in w.past.wrote && var (b, v) := w.past.wrote[s]; b == a && a in w.past.lists && v < |w.past.lists[a]| && s in w.past.lists[a][v]
  {
    hide RowsOk, ClearOk;
    ReachedIndex(steps);
    assert PointerOk(IndexOf(Reached(steps)), s);
  }

  /** The exact condition, in every reachable state, whatever overlapped, failed, died or was registered elsewhere: the
      pointer row is right if and only if the session came or went an even number of times on the agent's list since the
      version the row was last written from. */
  lemma PointerIsRightIff(steps: seq<Step>, a: string, s: string)
    requires a in Reached(steps).agents
    ensures var w := Reached(steps);
            a in w.past.lists && (Right(w, a, s) <==> (Changes(w.past.lists[a], s) - ChangesShown(w, a, s)) % 2 == 0)
  {
    var w := Reached(steps);
    ReachedLists(steps, a);
    PointerShowsTheListWritten(steps, a, s);
    ChangesTell(w.past.lists[a], s);
    if s in w.past.wrote && w.past.wrote[s].0 == a && w.past.wrote[s].1 < |w.past.lists[a]| {
      ChangesTell(w.past.lists[a][..w.past.wrote[s].1 + 1], s);
    }
  }

  /** So a pointer write leaves its row right if and only if the version it writes and the list the agent has by then agree on the
      session, whoever writes it: a claim, a handshake, or the backfill at boot. */
  lemma AWriteIsRightIff(steps: seq<Step>, k: CallId)
    requires var w := Reached(steps); k in w.calls && w.calls[k].Mirroring? && (w.calls[k].adds != [] || w.calls[k].dels != [])
    ensures var w, u := Reached(steps), Reached(steps + [Mirror(k, true)]); var a, s := w.calls[k].agent, Next(w.calls[k]);
            && a in u.agents && a in w.past.lists && k in w.past.version && w.past.version[k] < |w.past.lists[a]|
            && (Right(u, a, s) <==> (s in w.past.lists[a][w.past.version[k]] <==> s in u.agents[a].row.registered))
  {
    hide RowsOk, ClearOk;
    var w := Reached(steps);
    var a, s := w.calls[k].agent, Next(w.calls[k]);
    ReachedIndex(steps);
    assert k in IndexOf(w).writers && WriterOk(IndexOf(w), k);
    assert a in IndexOf(w).now;
    ReachedOn(steps, [Mirror(k, true)]);
    assert [Mirror(k, true)][1..] == [];
    WriteDoes(w, k);
    PointerShowsTheListWritten(steps + [Mirror(k, true)], a, s);
  }

  /* ------------------------------------------------------------------ a condition that holds of quiet agents */

  /** No write of this pointer row is outstanding or lost, no two were owed at once, and nobody else used the session. */
  predicate Settled(w: World, a: string, s: string) {
    a in w.agents && !Owing(w.calls, a, s) && (a, s) !in w.past.lapsed && s !in w.past.mixed
  }

  /** Through any interleaving of claims, handshakes, retries, evictions, heartbeats and restarts, and whatever became of other
      agents' and other sessions' rows, a settled pointer row is right. */
  lemma PointerRowsAgree(steps: seq<Step>, a: string, s: string)
    requires Settled(Reached(steps), a, s)
    ensures Right(Reached(steps), a, s)
  {
    hide RowsOk, WritesOk;
    ReachedIndex(steps);
    var w := Reached(steps);
    var x := IndexOf(w);
    WritersOwe(w.calls, a, s);
    assert Settleable(x, a, s) && Clear(x, a, s);
  }

  /** So once nothing in memory knows the session, it resolves to the agent exactly if the agent lists it and is
      not archived. */
  lemma ResolutionSurvivesRestart(steps: seq<Step>, a: string, s: string)
    requires Settled(Reached(steps), a, s) && s !in Reached(steps).sessions
    ensures var w := Reached(steps); Resolve(w, s) == Some(a) <==> s in w.agents[a].row.registered && !w.agents[a].row.archived
  {
    PointerRowsAgree(steps, a, s);
  }

  /* ------------------------------------------------------------------ displaced sessions */

  ghost predicate EnroleeUsed(w: World, a: string, i: nat) {
    && a in w.past.hist && i < |w.past.hist[a]|
    && var s := Enrolee(w.past.hist[a][i].op);
       s.Some? ==> s.value in w.past.users && (s.value !in w.past.mixed ==> w.past.users[s.value] == a)
  }

  /** Every session an agent's history registers is known as used by it, or by two. */
  ghost predicate EnroleesOk(w: World) {
    forall a, i: nat {:trigger EnroleeUsed(w, a, i)} | a in w.past.hist && i < |w.past.hist[a]| :: EnroleeUsed(w, a, i)
  }

  ghost predicate UsersGrow(p: Past, q: Past) {
    (forall s | s in p.users :: s in q.users && q.users[s] == p.users[s]) && p.mixed <= q.mixed
  }

  lemma SameHistEnrolees(w: World, w': World)
    requires EnroleesOk(w) && UsersGrow(w.past, w'.past)
    requires forall a | a in w'.past.hist :: w'.past.hist[a] == [] || (a in w.past.hist && w'.past.hist[a] == w.past.hist[a])
    ensures EnroleesOk(w')
  {
    forall a, i: nat | a in w'.past.hist && i < |w'.past.hist[a]| ensures EnroleeUsed(w', a, i) { assert EnroleeUsed(w, a, i); }
  }

  lemma SameIndexUsers(w: World, w': World)
    requires IndexOf(w').users == IndexOf(w).users && IndexOf(w').mixed == IndexOf(w).mixed
    ensures UsersGrow(w.past, w'.past)
  {
  }

  lemma EnrolledUsers(w: World, w': World, k: CallId, a: string, after: seq<string>, s: Option<string>, d: Option<string>)
    requires IndexOf(w') == Enrolled(IndexOf(w), k, a, after, s, d)
    ensures UsersGrow(w.past, w'.past) && (s.Some? ==> s.value in w'.past.users && (s.value !in w'.past.mixed ==> w'.past.users[s.value] == a))
  {
    hide Lists, Writers, Minus, Owing;
  }

  lemma CommitEnrolees(w: World, k: CallId)
    requires RowsOk(w) && EnroleesOk(w) && k in w.calls && w.calls[k].Loaded?
    ensures EnroleesOk(DoCommit(w, k))
  {
    hide RowsOk, DoCommit, Apply, IndexOf, Enrolled, Enrolee;
    var c, w' := w.calls[k], DoCommit(w, k);
    CommitKnows(w, k);
    if !Wins(w, k) {
      LostCommitKeepsIndex(w, k);
      CommitLoses(w, k);
      SameIndexUsers(w, w');
      SameHistEnrolees(w, w');
    } else {
      CommitWins(w, k);
      CommitUsers(w, k);
      forall a, i: nat | a in w'.past.hist && i < |w'.past.hist[a]| ensures EnroleeUsed(w', a, i) {
        if a in w.past.hist && i < |w.past.hist[a]| { assert EnroleeUsed(w, a, i); OldEvents(w, k, a, i); } else { NewEvent(w, k, a, i); }
      }
    }
  }

  lemma OldEvents(w: World, k: CallId, a: string, i: nat)
    requires Wins(w, k) && a in w.past.hist && i < |w.past.hist[a]|
    ensures var w' := DoCommit(w, k); a in w'.past.hist && i < |w'.past.hist[a]| && w'.past.hist[a][i] == w.past.hist[a][i]
  {
    hide DoCommit;
    CommitHistory(w, k);
  }

  lemma NewEvent(w: World, k: CallId, a: string, i: nat)
    requires Wins(w, k) && var w' := DoCommit(w, k); a in w'.past.hist && i < |w'.past.hist[a]| && !(a in w.past.hist && i < |w.past.hist[a]|)
    ensures var w' := DoCommit(w, k); a == w.calls[k].agent && w'.past.hist[a][i].op == w.calls[k].op
  {
    hide DoCommit, Apply;
    CommitHistory(w, k);
  }

  lemma CommitUsers(w: World, k: CallId)
    requires RowsOk(w) && Wins(w, k)
    ensures var w' := DoCommit(w, k); var s := Enrolee(w.calls[k].op);
            UsersGrow(w.past, w'.past) && (s.Some? ==> s.value in w'.past.users && (s.value !in w'.past.mixed ==> w'.past.users[s.value] == w.calls[k].agent))
  {
    hide RowsOk, DoCommit, Apply, IndexOf, Enrolled;
    var c, w' := w.calls[k], DoCommit(w, k);
    CommitKnows(w, k);
    if Registers(c.op) {
      CommitIndex(w, k);
      var d :| IndexOf(w') == Enrolled(IndexOf(w), k, c.agent, Apply(c.seen.row, c.op, c.now).registered, Enrolee(c.op), d);
      EnrolledUsers(w, w', k, c.agent, Apply(c.seen.row, c.op, c.now).registered, Enrolee(c.op), d);
    } else {
      PlainCommitKeepsIndex(w, k);
      SameIndexUsers(w, w');
    }
  }

  lemma CreateEnrolees(w: World, s: Step)
    requires EnroleesOk(w) && s.Create? && s.k !in w.calls && s.agent !in w.agents
    ensures EnroleesOk(DoCreate(w, s.k, s.agent, s.binding, s.now))
  {
    hide IndexOf, Enrolled;
    var w' := DoCreate(w, s.k, s.agent, s.binding, s.now);
    CreateIndex(w, s.k, s.agent, s.binding, s.now);
    EnrolledUsers(w, w', s.k, s.agent, Newborn(s.binding, s.now).registered, if Names(s.binding) then s.binding else None, None);
    SameHistEnrolees(w, w');
  }

  lemma MirrorUsers(w: World, k: CallId, ok: bool)
    ensures UsersGrow(w.past, DoMirror(w, k, ok).past)
  {
    if k in w.calls && w.calls[k].Mirroring? {
      hide AddPointer, DropPointer;
      var c := w.calls[k];
      if c.adds != [] { AddDoes(w, k, c, ok); } else if c.dels != [] { DropDoes(w, k, c, ok); }
    }
  }

  lemma OtherEnrolees(w: World, s: Step)
    requires EnroleesOk(w) && !s.Create? && !s.Load? && !s.Commit?
    ensures EnroleesOk(Do(w, s))
  {
    hide EnroleesOk, DoMirror, SameRows, AllOwed;
    OtherRows(w, s);
    if s.Mirror? { MirrorUsers(w, s.k, s.ok); }
    SameRowsEnrolees(w, Do(w, s), s.k);
  }

  lemma SameRowsEnrolees(w: World, w': World, k: CallId)
    requires EnroleesOk(w) && SameRows(w, w', k) && UsersGrow(w.past, w'.past)
    ensures EnroleesOk(w')
  {
    SameHistEnrolees(w, w');
  }

  lemma StepEnrolees(w: World, s: Step)
    requires RowsOk(w) && EnroleesOk(w)
    ensures EnroleesOk(Do(w, s))
  {
    hide RowsOk, EnroleesOk, DoLoad, DoCommit, DoCreate, SameRows, IndexOf;
    if s.Create? { if s.k !in w.calls { if s.agent in w.agents { CreatesNothing(w, s); } else { CreateEnrolees(w, s); } } }
    else if s.Load? { LoadEnrolees(w, s.k, s.now); }
    else if s.Commit? { if s.k in w.calls && w.calls[s.k].Loaded? { CommitEnrolees(w, s.k); } else { NoCommit(w, s.k); } }
    else { hide Do; OtherEnrolees(w, s); }
  }

  lemma CreatesNothing(w: World, s: Step)
    requires s.Create? && s.agent in w.agents
    ensures DoCreate(w, s.k, s.agent, s.binding, s.now) == w
  {
  }

  lemma LoadEnrolees(w: World, k: CallId, now: int)
    requires EnroleesOk(w)
    ensures EnroleesOk(DoLoad(w, k, now))
  {
    hide EnroleesOk, DoLoad, IndexOf;
    if k in w.calls && w.calls[k].Ready? {
      LoadShape(w, k, now);
      LoadKeepsIndex(w, k, now);
      SameIndexUsers(w, DoLoad(w, k, now));
      SameRowsEnrolees(w, DoLoad(w, k, now), k);
    } else {
      NoLoad(w, k, now);
    }
  }

  lemma {:induction false} RunEnrolees(w: World, steps: seq<Step>)
    requires RowsOk(w) && EnroleesOk(w)
    ensures EnroleesOk(Run(w, steps))
    decreases |steps|
  {
    hide RowsOk, EnroleesOk, Do;
    if steps != [] {
      StepRows(w, steps[0]);
      StepEnrolees(w, steps[0]);
      RunEnrolees(Do(w, steps[0]), steps[1..]);
    }
  }

  lemma {:induction false} ClaimantClaimed(h: seq<Event>, s: string)
    requires LastClaimant(h) == Some(s)
    ensures exists m: nat :: m < |h| && h[m].op == Claim(s)
    decreases |h|
  {
    var n := |h| - 1;
    if h[n].op.Claim? {
      assert h[n].op == Claim(s);
    } else {
      ClaimantClaimed(h[..n], s);
      var m: nat :| m < n && h[..n][m].op == Claim(s);
      assert h[m].op == Claim(s);
    }
  }

  /** A session an agent's claim displaced is that agent's, unless it was used with another as well. */
  lemma DisplacedIsUsed(steps: seq<Step>, a: string, i: nat, s: string)
    requires var w := Reached(steps); a in w.agents && a in w.past.hist && i < |w.past.hist[a]| && w.past.hist[a][i].op.Claim? && s !in w.past.mixed
    requires var e := Reached(steps).past.hist[a][i]; var d := Displaced(e.before, e.op.session); d.Some? && d.value.0 == s
    ensures var p := Reached(steps).past; s in p.users && p.users[s] == a
  {
    hide Apply;
    var w := Reached(steps);
    RunRows(Init(), steps);
    RunEnrolees(Init(), steps);
    assert Registry.RowOk(w, a);
    var h := w.past.hist[a];
    LinearPrefix(w.past.first[a], h, w.agents[a].row, i);
    CountersMatchHistory(w.past.first[a], h[..i], h[i].before);
    ClaimantClaimed(h[..i], s);
    var m: nat :| m < i && h[..i][m].op == Claim(s);
    assert EnroleeUsed(w, a, m) && h[m].op == Claim(s);
  }

  /** A displaced session resolves to nothing, once nothing in memory knows it, until it registers itself anew. */
  lemma DisplacedSessionsResolveToNothing(steps: seq<Step>, a: string, i: nat, s: string)
    requires Settled(Reached(steps), a, s) && s !in Reached(steps).sessions
    requires var w := Reached(steps); a in w.past.hist && i < |w.past.hist[a]| && w.past.hist[a][i].op.Claim?
    requires var e := Reached(steps).past.hist[a][i]; var d := Displaced(e.before, e.op.session); d.Some? && d.value.0 == s
    requires var h := Reached(steps).past.hist[a]; forall j | i < j < |h| :: !Enrols(h[j].op, s)
    ensures Resolve(Reached(steps), s) == None
  {
    hide RowsOk, WritesOk;
    var w := Reached(steps);
    NoLostUpdates(steps, a);
    DisplacedStaysOut(w.past.first[a], w.past.hist[a], w.agents[a].row, i, s);
    PointerRowsAgree(steps, a, s);
    DisplacedIsUsed(steps, a, i, s);
    ReachedIndex(steps);
    assert SessionUsed(IndexOf(w), s);
  }

  /* ------------------------------------------------------------------ writers at once */

  predicate OwesIn(w: World, k: CallId, a: string, s: string) {
    k in w.calls && Owes(w.calls[k], a, s)
  }

  /** Two registrations of one agent, the second right after the first, whose pointer writes are both under way: the second has
      all of its own still to make. */
  ghost predicate Overlap(w: World, a: string, j: CallId, k: CallId) {
    && a in w.agents && a in w.past.lists && j != k && j in w.calls && k in w.calls && j in w.past.version && k in w.past.version
    && w.calls[j].Mirroring? && w.calls[k].Mirroring? && w.calls[j].agent == a && w.calls[k].agent == a
    && w.past.version[j] + 1 == w.past.version[k] == |w.past.lists[a]| - 1
    && var before, after := w.past.lists[a][w.past.version[j]], w.past.lists[a][w.past.version[k]];
       w.calls[k].adds == Minus(after, before) && w.calls[k].dels == Minus(before, after)
  }

  /** The step is a successful pointer write of one of the calls. */
  predicate WriteOf(s: Step, calls: set<CallId>) {
    s.Mirror? && s.ok && s.k in calls
  }

  /** What one such write does to the rest of the world. */
  lemma WriteDoes(w: World, k: CallId)
    ensures var u := Do(w, Mirror(k, true));
            && u.agents == w.agents && u.past.lists == w.past.lists && u.past.version == w.past.version
            && (forall j | j != k :: (j in u.calls <==> j in w.calls) && (j in w.calls ==> u.calls[j] == w.calls[j]))
            && (k in u.calls && u.calls[k].Mirroring? ==> k in w.calls && w.calls[k].Mirroring? && u.calls[k].agent == w.calls[k].agent)
            && (!(k in w.calls && w.calls[k].Mirroring? && (w.calls[k].adds != [] || w.calls[k].dels != [])) ==> u.past.wrote == w.past.wrote)
            && (k in w.calls && w.calls[k].Mirroring? && (w.calls[k].adds != [] || w.calls[k].dels != []) && k in w.past.version ==>
                  k in u.calls && u.calls[k] == Less(w.calls[k]) && u.past.wrote == w.past.wrote[Next(w.calls[k]) := (w.calls[k].agent, w.past.version[k])])
            && (k in w.calls && w.calls[k].Mirroring? && w.calls[k].adds == [] && w.calls[k].dels == [] ==> k !in u.calls)
  {
    hide AddPointer, DropPointer, Remember;
    if k in w.calls && w.calls[k].Mirroring? {
      var c := w.calls[k];
      if c.adds != [] { AddDoes(w, k, c, true); } else if c.dels != [] { DropDoes(w, k, c, true); } else { RememberDoes(w, k, c); RememberPast(w, k, c); }
    }
  }

  lemma RememberPast(w: World, k: CallId, c: Call)
    requires c.Mirroring?
    ensures Remember(w, k, c).past == w.past
  {
  }

  /** Who writes a row last: if only one of two calls owes it, that one; if neither does, nobody. */
  lemma {:induction false} WhoWritesLast(w: World, more: seq<Step>, a: string, j: CallId, k: CallId, s: string)
    requires j != k && j in w.past.version && k in w.past.version && forall m | m in more :: WriteOf(m, {j, k})
    requires forall i | i in {j, k} && i in w.calls && w.calls[i].Mirroring? :: w.calls[i].agent == a
    requires !OwesIn(Run(w, more), j, a, s) && !OwesIn(Run(w, more), k, a, s)
    ensures var u := Run(w, more); var oj, ok := OwesIn(w, j, a, s), OwesIn(w, k, a, s);
            && u.agents == w.agents && u.past.lists == w.past.lists && u.past.version == w.past.version
            && (!oj && !ok ==> (s in u.past.wrote <==> s in w.past.wrote) && (s in w.past.wrote ==> u.past.wrote[s] == w.past.wrote[s]))
            && (oj || ok ==> s in u.past.wrote && ((oj && u.past.wrote[s] == (a, w.past.version[j])) || (ok && u.past.wrote[s] == (a, w.past.version[k]))))
    decreases |more|
  {
    hide Do;
    if more != [] {
      assert more[0] in more;
      var i := more[0].k;
      var v := Do(w, more[0]);
      assert more[0] == Mirror(i, true);
      WriteDoes(w, i);
      if i in w.calls && w.calls[i].Mirroring? && (w.calls[i].adds != [] || w.calls[i].dels != []) { LessIs(w.calls[i]); }
      WhoWritesLast(v, more[1..], a, j, k, s);
    }
  }

  lemma ReachedOn(steps: seq<Step>, more: seq<Step>)
    ensures Reached(steps + more) == Run(Reached(steps), more)
  {
    RunOn(Init(), steps, more);
  }

  lemma {:induction false} RunOn(w: World, a: seq<Step>, b: seq<Step>)
    ensures Run(w, a + b) == Run(Run(w, a), b)
    decreases |a|
  {
    hide Do;
    if a == [] {
      assert a + b == b;
    } else {
      assert (a + b)[0] == a[0] && (a + b)[1..] == a[1..] + b;
      RunOn(Do(w, a[0]), a[1..], b);
    }
  }

  /** Two overlapping writers, their writes interleaved in any way: once both are done, a row only one of them owed is
      right, one neither owed is as right as it was, and one both owed is right if and only if the later registration
      wrote it last. */
  lemma OverlappingWriters(steps: seq<Step>, more: seq<Step>, a: string, j: CallId, k: CallId, s: string)
    requires Overlap(Reached(steps), a, j, k) && forall m | m in more :: WriteOf(m, {j, k})
    requires var u := Reached(steps + more); !OwesIn(u, j, a, s) && !OwesIn(u, k, a, s)
    ensures var w, u := Reached(steps), Reached(steps + more);
            && a in u.agents
            && (Right(u, a, s) <==>
                  if OwesIn(w, j, a, s) && OwesIn(w, k, a, s) then s in u.past.wrote && u.past.wrote[s] == (a, w.past.version[k])
                  else OwesIn(w, j, a, s) || OwesIn(w, k, a, s) || Right(w, a, s))
  {
    var w := Reached(steps);
    ReachedOn(steps, more);
    var u := Run(w, more);
    WhoWritesLast(w, more, a, j, k, s);
    ReachedLists(steps, a);
    ReachedLists(steps + more, a);
    PointerShowsTheListWritten(steps, a, s);
    PointerShowsTheListWritten(steps + more, a, s);
    MinusIs(w.past.lists[a][w.past.version[k]], w.past.lists[a][w.past.version[j]]);
    MinusIs(w.past.lists[a][w.past.version[j]], w.past.lists[a][w.past.version[k]]);
  }

  /** If the later registration's writes all come first, a row both owed is wrong in the end. */
  lemma OutOfOrder(steps: seq<Step>, first: seq<Step>, second: seq<Step>, a: string, j: CallId, k: CallId, s: string)
    requires Overlap(Reached(steps), a, j, k) && (forall m | m in first :: WriteOf(m, {k})) && (forall m | m in second :: WriteOf(m, {j}))
    requires k !in Reached(steps + first).calls && j !in Reached(steps + first + second).calls
    ensures var w, u := Reached(steps), Reached(steps + (first + second));
            && a in u.agents
            && (Right(u, a, s) <==> !(OwesIn(w, j, a, s) && OwesIn(w, k, a, s)) && (OwesIn(w, j, a, s) || OwesIn(w, k, a, s) || Right(w, a, s)))
  {
    var w := Reached(steps);
    ReachedOn(steps, first);
    ReachedOn(steps + first, second);
    assert steps + first + second == steps + (first + second);
    var mid := Run(w, first);
    OthersKept(w, first, k, j);
    OthersKept(mid, second, j, k);
    OverlappingWriters(steps, first + second, a, j, k, s);
    if OwesIn(w, j, a, s) && OwesIn(w, k, a, s) { WhoWritesLast(mid, second, a, j, k, s); }
  }

  /** Writes of one call leave another call as it was. */
  lemma {:induction false} OthersKept(w: World, more: seq<Step>, k: CallId, j: CallId)
    requires j != k && forall m | m in more :: WriteOf(m, {k})
    ensures var u := Run(w, more);
            && (j in u.calls <==> j in w.calls) && (j in w.calls ==> u.calls[j] == w.calls[j])
            && u.past.version == w.past.version && u.past.lists == w.past.lists && u.agents == w.agents
    decreases |more|
  {
    hide Do;
    if more != [] {
      assert more[0] in more && more[0] == Mirror(k, true);
      WriteDoes(w, k);
      OthersKept(Do(w, more[0]), more[1..], k, j);
    }
  }

  /** So registrations written in the wrong order leave the agent's rows all right if and only if no session was changed by
      both: neither undid what the other did. */
  lemma OutOfOrderAgreesIff(steps: seq<Step>, first: seq<Step>, second: seq<Step>, a: string, j: CallId, k: CallId)
    requires Overlap(Reached(steps), a, j, k) && (forall m | m in first :: WriteOf(m, {k})) && (forall m | m in second :: WriteOf(m, {j}))
    requires k !in Reached(steps + first).calls && j !in Reached(steps + first + second).calls
    requires var w := Reached(steps); forall s :: OwesIn(w, j, a, s) || OwesIn(w, k, a, s) || Right(w, a, s)
    ensures a in Reached(steps + (first + second)).agents
    ensures (forall s :: Right(Reached(steps + (first + second)), a, s)) <==> forall s :: !(OwesIn(Reached(steps), j, a, s) && OwesIn(Reached(steps), k, a, s))
  {
    hide Overlap, Right, OwesIn, Run;
    OutOfOrder(steps, first, second, a, j, k, "");
    forall s ensures Right(Reached(steps + (first + second)), a, s) <==> !(OwesIn(Reached(steps), j, a, s) && OwesIn(Reached(steps), k, a, s)) {
      OutOfOrder(steps, first, second, a, j, k, s);
    }
  }

  /** A claim and the claim that displaces it never leave the displaced session's row right when they are written out of order:
      it goes on naming the agent. */
  lemma OverlappingClaimsDisagree(steps: seq<Step>, first: seq<Step>, second: seq<Step>, a: string, j: CallId, k: CallId, s: string)
    requires Overlap(Reached(steps), a, j, k) && (forall m | m in first :: WriteOf(m, {k})) && (forall m | m in second :: WriteOf(m, {j}))
    requires k !in Reached(steps + first).calls && j !in Reached(steps + first + second).calls
    requires s in Reached(steps).calls[j].adds
    requires var h := Lookup(Reached(steps).past.hist, a);
             h != [] && var e := h[|h| - 1]; e.op.Claim? && var d := Displaced(e.before, e.op.session); d.Some? && d.value.0 == s
    ensures var u := Reached(steps + (first + second)); a in u.agents && s !in u.agents[a].row.registered && s in u.bindings && u.bindings[s] == a
  {
    var w := Reached(steps);
    DisplacedIsOff(steps, a, s);
    JustAdded(steps, a, j, s);
    MinusIs(w.past.lists[a][w.past.version[j]], w.past.lists[a][w.past.version[k]]);
    ReachedLists(steps, a);
    OutOfOrder(steps, first, second, a, j, k, s);
    ReachedOn(steps, first);
    ReachedOn(steps + first, second);
    assert steps + first + second == steps + (first + second);
    OthersKept(w, first, k, j);
    OthersKept(Run(w, first), second, j, k);
  }

  lemma JustAdded(steps: seq<Step>, a: string, j: CallId, s: string)
    requires var w := Reached(steps); j in w.calls && w.calls[j].Mirroring? && w.calls[j].agent == a && s in w.calls[j].adds
    ensures var w := Reached(steps); a in w.past.lists && j in w.past.version && w.past.version[j] < |w.past.lists[a]| && s in w.past.lists[a][w.past.version[j]]
  {
    hide RowsOk, ClearOk;
    ReachedIndex(steps);
    assert j in IndexOf(Reached(steps)).writers && WriterOk(IndexOf(Reached(steps)), j);
  }

  /** The session the last claim displaced is off the list. */
  lemma DisplacedIsOff(steps: seq<Step>, a: string, s: string)
    requires a in Reached(steps).agents
    requires var h := Lookup(Reached(steps).past.hist, a);
             h != [] && var e := h[|h| - 1]; e.op.Claim? && var d := Displaced(e.before, e.op.session); d.Some? && d.value.0 == s
    ensures s !in Reached(steps).agents[a].row.registered
  {
    var w := Reached(steps);
    NoLostUpdates(steps, a);
    var h := w.past.hist[a];
    DisplacedStaysOut(w.past.first[a], h, w.agents[a].row, |h| - 1, s);
  }
}
