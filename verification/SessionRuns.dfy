/** Runs after which a displaced session still resolves: nobody crashes but by a restart of the whole process, no write fails,
    and no call is left in flight. */
module SessionRuns {
  import opened Substrate
  import opened Agents
  import opened Registry
  import opened SessionResolution
  import Breaker

  const AGENT := "agent"
  const FIRST := "first"
  const SECOND := "second"

  lemma RunOne(w: World, s: Step)
    ensures Run(w, [s]) == Do(w, s)
  {
    hide Do;
    assert [s][1..] == [];
  }

  lemma RunTwo(w: World, s: Step, t: Step)
    ensures Run(w, [s, t]) == Do(Do(w, s), t)
  {
    hide Do;
    RunOne(w, s);
    RunOne(Do(w, s), t);
    RunOn(w, [s], [t]);
    assert [s] + [t] == [s, t];
  }

  lemma RunThree(w: World, s: Step, t: Step, u: Step)
    ensures Run(w, [s, t, u]) == Do(Do(Do(w, s), t), u)
  {
    hide Do;
    RunTwo(w, s, t);
    RunOne(Do(Do(w, s), t), u);
    RunOn(w, [s, t], [u]);
    assert [s, t] + [u] == [s, t, u];
  }

  predicate Resumes(steps: seq<Step>) {
    forall s | s in steps :: !s.Abandon? && (s.Mirror? ==> s.ok)
  }

  /* ------------------------------------------------------------------ the first claim */

  /** The first session has the agent, and `calls` are in flight. */
  ghost predicate FirstHolds(w: World, calls: map<CallId, Call>) {
    && w.calls == calls && w.windows == map[] && AGENT in w.agents && AGENT in w.past.hist
    && var row := w.agents[AGENT].row; row.registered == [FIRST] && row.current == Some(FIRST) && row.online && !row.archived
  }

  function FirstWriter(): Call {
    Mirroring(AGENT, [FIRST], [], Some(FIRST), None)
  }

  lemma Created()
    ensures var w := Do(Do(Init(), Create(0, AGENT, None, 0)), Mirror(0, true));
            w.calls == map[] && w.agents == map[AGENT := Versioned(Newborn(None, 0), 1)] && w.past.hist.Keys == {AGENT} && w.bindings == map[]
            && w.windows == map[] && w.sessions == map[]
  {
    var w := Do(Init(), Create(0, AGENT, None, 0));
    assert w.calls[0] == Mirroring(AGENT, [], [], None, None) && w.calls - {0} == map[];
  }

  lemma FirstClaimLoads(w: World)
    requires w.calls == map[] && AGENT in w.agents && !w.agents[AGENT].row.online
    ensures var v := Do(Do(w, Begin(1, AGENT, Claim(FIRST))), Load(1, 1));
            v == At(Ticked(w, Claim(FIRST), 1), 1, Loaded(AGENT, Claim(FIRST), 0, w.agents[AGENT], 1, None))
  {
    var u := Do(w, Begin(1, AGENT, Claim(FIRST)));
    assert u.calls == map[1 := Ready(AGENT, Claim(FIRST), 0)];
    assert w.calls[1 := Ready(AGENT, Claim(FIRST), 0)][1 := Loaded(AGENT, Claim(FIRST), 0, w.agents[AGENT], 1, None)]
           == w.calls[1 := Loaded(AGENT, Claim(FIRST), 0, w.agents[AGENT], 1, None)];
  }

  lemma FirstClaimCommits(w: World)
    requires w.calls == map[1 := Loaded(AGENT, Claim(FIRST), 0, Versioned(Newborn(None, 0), 1), 1, None)]
    requires w.agents == map[AGENT := Versioned(Newborn(None, 0), 1)] && w.past.hist.Keys == {AGENT} && w.bindings == map[] && w.windows == map[]
    ensures FirstHolds(Do(w, Commit(1)), map[1 := FirstWriter()])
  {
    var u := Do(w, Commit(1));
    assert Append([], FIRST) == [FIRST];
    assert Minus([FIRST], []) == [FIRST];
    assert u.calls == w.calls[1 := FirstWriter()];
  }

  lemma FirstClaim() returns (steps: seq<Step>)
    ensures Resumes(steps) && FirstHolds(Reached(steps), map[1 := FirstWriter()])
  {
    hide Do;
    var one := [Create(0, AGENT, None, 0), Mirror(0, true)];
    var two := [Begin(1, AGENT, Claim(FIRST)), Load(1, 1), Commit(1)];
    RunTwo(Init(), one[0], one[1]);
    Created();
    var w := Reached(one);
    RunThree(w, two[0], two[1], two[2]);
    FirstClaimLoads(w);
    FirstClaimCommits(Do(Do(w, two[0]), two[1]));
    ReachedOn(one, two);
    steps := one + two;
  }

  /** A writer of the first session's row writes it, and is done. */
  lemma WritesFirst(w: World, session: Option<string>)
    requires w.calls == map[1 := Mirroring(AGENT, [FIRST], [], session, None)]
    ensures var v := Run(w, [Mirror(1, true), Mirror(1, true)]);
            && v.calls == map[] && v.agents == w.agents && v.past.hist == w.past.hist && v.windows == w.windows && FIRST in v.bindings && v.bindings[FIRST] == AGENT
            && (session.None? ==> v.sessions == w.sessions)
  {
    hide Do;
    RunTwo(w, Mirror(1, true), Mirror(1, true));
    FirstPut(w, session);
    var u := Do(w, Mirror(1, true));
    WriterEnds(u, session);
  }

  lemma FirstPut(w: World, session: Option<string>)
    requires w.calls == map[1 := Mirroring(AGENT, [FIRST], [], session, None)]
    ensures var u := Do(w, Mirror(1, true));
            && u.calls == map[1 := Mirroring(AGENT, [], [], session, None)] && u.agents == w.agents && u.past.hist == w.past.hist && u.windows == w.windows
            && u.bindings == w.bindings[FIRST := AGENT] && u.sessions == w.sessions
  {
    assert [FIRST][1..] == [];
  }

  lemma WriterEnds(w: World, session: Option<string>)
    requires w.calls == map[1 := Mirroring(AGENT, [], [], session, None)]
    ensures var u := Do(w, Mirror(1, true));
            && u.calls == map[] && u.agents == w.agents && u.past == w.past && u.windows == w.windows && u.bindings == w.bindings
            && (session.None? ==> u.sessions == w.sessions)
  {
  }

  lemma Restarts(w: World)
    ensures var v := Do(w, Restart(9));
            v.calls == map[] && v.sessions == map[] && v.windows == map[] && v.agents == w.agents && v.bindings == w.bindings && v.past.hist == w.past.hist
  {
    hide AllOwed;
  }

  /** The first session has the agent, its row is written, and the process has been started anew. */
  lemma FirstHeldAtBoot() returns (steps: seq<Step>)
    ensures Resumes(steps) && var w := Reached(steps);
            && FirstHolds(w, map[]) && w.sessions == map[] && FIRST in w.bindings && w.bindings[FIRST] == AGENT
  {
    hide Do;
    var one := FirstClaim();
    var w := Reached(one);
    var two := [Mirror(1, true), Mirror(1, true)];
    WritesFirst(w, Some(FIRST));
    ReachedOn(one, two);
    var three := [Restart(9)];
    RunOne(Run(w, two), three[0]);
    Restarts(Run(w, two));
    ReachedOn(one + two, three);
    steps := one + two + three;
  }

  /* ------------------------------------------------------------------ the second claim, around a call in flight */

  /** The second session has displaced the first, and has its pointer rows still to write; call 1 waits. */
  ghost predicate SecondHolds(w: World, c: Call) {
    && w.calls == map[1 := c, 2 := Mirroring(AGENT, [SECOND], [FIRST], Some(SECOND), Some(FIRST))] && AGENT in w.agents
    && var row := w.agents[AGENT].row; row.registered == [SECOND] && row.current == Some(SECOND) && !row.archived
  }

  lemma SecondClaimLoads(w: World, c: Call)
    requires FirstHolds(w, map[1 := c])
    ensures var v := Do(Do(w, Begin(2, AGENT, Claim(SECOND))), Load(2, 2));
            && v.calls == w.calls[2 := Loaded(AGENT, Claim(SECOND), 0, w.agents[AGENT], 2, Some(|Lookup(w.past.attempts, AGENT)|))]
            && v.agents == w.agents && v.past.hist == w.past.hist
  {
    hide Lookup, Do;
    SecondBegins(w);
    var u := Do(w, Begin(2, AGENT, Claim(SECOND)));
    SecondLoads(u);
    var next := Loaded(AGENT, Claim(SECOND), 0, w.agents[AGENT], 2, Some(|Lookup(w.past.attempts, AGENT)|));
    assert u.calls[2 := next] == w.calls[2 := next];
  }

  lemma SecondBegins(w: World)
    requires 2 !in w.calls
    ensures Do(w, Begin(2, AGENT, Claim(SECOND))) == At(w, 2, Ready(AGENT, Claim(SECOND), 0))
  {
  }

  lemma SecondLoads(w: World)
    requires 2 in w.calls && w.calls[2] == Ready(AGENT, Claim(SECOND), 0) && w.windows == map[] && AGENT in w.agents && w.agents[AGENT].row.online
    ensures var v := Do(w, Load(2, 2));
            && v.calls == w.calls[2 := Loaded(AGENT, Claim(SECOND), 0, w.agents[AGENT], 2, Some(|Lookup(w.past.attempts, AGENT)|))]
            && v.agents == w.agents && v.past.hist == w.past.hist
  {
    hide Lookup, Attempted;
    AttemptedKeeps(w, AGENT, 2);
    FirstAttemptPasses(w, 2);
  }

  lemma FirstAttemptPasses(w: World, now: int)
    requires w.windows == map[]
    ensures AGENT in Attempted(w, AGENT, now).windows && |Attempted(w, AGENT, now).windows[AGENT]| <= Breaker.THRESHOLD
  {
  }

  lemma SecondClaimList(row: Agent)
    requires row.registered == [FIRST] && row.current == Some(FIRST) && row.online && !row.archived
    ensures var next := Apply(row, Claim(SECOND), 2);
            && next.registered == [SECOND] && next.current == Some(SECOND) && !next.archived && Displaced(row, SECOND) == Some((FIRST, row.epoch))
    ensures Minus([SECOND], [FIRST]) == [SECOND] && Minus([FIRST], [SECOND]) == [FIRST]
  {
    assert [FIRST][1..] == [] && Without([FIRST], FIRST) == [];
    assert Revoked(Normalize(row), SECOND) == [];
    assert Append([], SECOND) == [SECOND];
  }

  lemma SecondClaimCommits(w: World, c: Call, seen: Versioned<Agent>, ticket: Option<nat>)
    requires w.calls == map[1 := c, 2 := Loaded(AGENT, Claim(SECOND), 0, seen, 2, ticket)]
    requires AGENT in w.agents && w.agents[AGENT] == seen && AGENT in w.past.hist
    requires seen.row.registered == [FIRST] && seen.row.current == Some(FIRST) && seen.row.online && !seen.row.archived
    ensures SecondHolds(Do(w, Commit(2)), c)
  {
    hide Apply, Minus, Displaced, Lookup, Accept, Owing;
    SecondClaimList(seen.row);
  }

  lemma SecondWrites(w: World, c: Call)
    requires SecondHolds(w, c)
    ensures var v := Run(w, [Mirror(2, true), Mirror(2, true), Mirror(2, true)]);
            && v.calls == map[1 := c] && v.agents == w.agents && FIRST !in v.bindings && FIRST !in v.sessions
  {
    hide DoMirror;
    RunThree(w, Mirror(2, true), Mirror(2, true), Mirror(2, true));
    var a := Do(w, Mirror(2, true));
    MirrorDoes(w, 2, true);
    assert w.calls[2].adds == [SECOND] && [SECOND][1..] == [];
    assert a.calls == w.calls[2 := Mirroring(AGENT, [], [FIRST], Some(SECOND), Some(FIRST))];
    var b := Do(a, Mirror(2, true));
    MirrorDoes(a, 2, true);
    assert [FIRST][1..] == [] && a.calls[2].dels == [FIRST];
    assert b.calls == a.calls[2 := Mirroring(AGENT, [], [], Some(SECOND), Some(FIRST))];
    assert b.calls == w.calls[2 := Mirroring(AGENT, [], [], Some(SECOND), Some(FIRST))];
    MirrorDoes(b, 2, true);
    assert b.calls - {2} == map[1 := c];
  }

  /** The whole of the second claim, while call 1 waits. */
  lemma SecondClaim(w: World, c: Call) returns (steps: seq<Step>)
    requires FirstHolds(w, map[1 := c])
    ensures Resumes(steps) && var v := Run(w, steps);
            && v.calls == map[1 := c] && AGENT in v.agents && FIRST !in v.bindings && FIRST !in v.sessions
            && var row := v.agents[AGENT].row; row.registered == [SECOND] && row.current == Some(SECOND) && !row.archived
  {
    hide Do;
    var one := [Begin(2, AGENT, Claim(SECOND)), Load(2, 2), Commit(2)];
    var two := [Mirror(2, true), Mirror(2, true), Mirror(2, true)];
    RunThree(w, one[0], one[1], one[2]);
    SecondClaimLoads(w, c);
    var u := Do(Do(w, one[0]), one[1]);
    SecondClaimCommits(u, c, w.agents[AGENT], u.calls[2].ticket);
    SecondWrites(Run(w, one), c);
    RunOn(w, one, two);
    steps := one + two;
  }

  /* ------------------------------------------------------------------ three ways to outlive a displacement */

  /** The second session has the agent, nothing goes on, and the first resolves to it all the same. */
  ghost predicate Outlived(w: World) {
    && w.calls == map[] && AGENT in w.agents && w.agents[AGENT].row.registered == [SECOND] && w.agents[AGENT].row.current == Some(SECOND)
    && Resolve(w, FIRST) == Some(AGENT)
  }

  /** Call 1 still has the first session's row to write when the second claim is through with its own rows; it does, and the
      process is restarted. */
  lemma LateWriteOutlives(steps: seq<Step>, session: Option<string>) returns (more: seq<Step>)
    requires FirstHolds(Reached(steps), map[1 := Mirroring(AGENT, [FIRST], [], session, None)])
    ensures Resumes(more) && Reached(steps + more).sessions == map[] && Outlived(Reached(steps + more))
  {
    hide Do;
    var one := SecondClaim(Reached(steps), Mirroring(AGENT, [FIRST], [], session, None));
    ReachedOn(steps, one);
    var w := Reached(steps + one);
    var two := [Mirror(1, true), Mirror(1, true)];
    WritesFirst(w, session);
    ReachedOn(steps + one, two);
    var three := [Restart(9)];
    RunOne(Run(w, two), three[0]);
    Restarts(Run(w, two));
    ReachedOn(steps + one + two, three);
    more := one + two + three;
    assert steps + more == steps + one + two + three;
  }

  /** Two claims can overlap so that the displaced session still resolves to the agent that no longer lists it, once both are
      done and the process has been restarted. */
  lemma AnOverlapCanLeaveAStalePointer() returns (steps: seq<Step>)
    ensures Resumes(steps) && Reached(steps).sessions == map[] && Outlived(Reached(steps))
  {
    var one := FirstClaim();
    var two := LateWriteOutlives(one, Some(FIRST));
    steps := one + two;
  }

  lemma RefillDoes(w: World)
    requires FirstHolds(w, map[])
    ensures FirstHolds(Do(w, Refill(1, AGENT, FIRST)), map[1 := Mirroring(AGENT, [FIRST], [], None, None)])
  {
  }

  /** No registrations need overlap for that: the backfill at boot lists the agent, a claim displaces the session and cleans up
      after it, and then the backfill's put lands.  Here a single claim is in flight at a time. */
  lemma ABackfillCanReviveADisplacedSession() returns (steps: seq<Step>)
    ensures Resumes(steps) && Reached(steps).sessions == map[] && Outlived(Reached(steps))
  {
    hide Do;
    var one := FirstHeldAtBoot();
    var two := [Refill(1, AGENT, FIRST)];
    RunOne(Reached(one), two[0]);
    RefillDoes(Reached(one));
    ReachedOn(one, two);
    var three := LateWriteOutlives(one + two, None);
    steps := one + two + three;
  }

  lemma LookUpDoes(w: World)
    requires FirstHolds(w, map[]) && FIRST !in w.sessions && FIRST in w.bindings && w.bindings[FIRST] == AGENT
    ensures FirstHolds(Do(w, LookUp(1, FIRST)), map[1 := Found(FIRST, AGENT)])
  {
  }

  lemma RehydrateDoes(w: World)
    requires w.calls == map[1 := Found(FIRST, AGENT)] && AGENT in w.agents && !w.agents[AGENT].row.archived
    ensures var u := Do(w, Rehydrate(1)); u.calls == map[] && u.agents == w.agents && u.bindings == w.bindings && u.sessions == w.sessions[FIRST := AGENT]
  {
  }

  /** Nor need a pointer row be wrong: a look-up that read the row before the claim deleted it remembers the session after the
      claim has forgotten it, and it resolves from memory. */
  lemma ALookUpCanOutliveAForget() returns (steps: seq<Step>)
    ensures Resumes(steps) && FIRST !in Reached(steps).bindings && Outlived(Reached(steps))
  {
    hide Do;
    var one := FirstHeldAtBoot();
    var two := [LookUp(1, FIRST)];
    RunOne(Reached(one), two[0]);
    LookUpDoes(Reached(one));
    ReachedOn(one, two);
    var w := Reached(one + two);
    var three := SecondClaim(w, Found(FIRST, AGENT));
    ReachedOn(one + two, three);
    var u := Run(w, three);
    var four := [Rehydrate(1)];
    RunOne(u, four[0]);
    RehydrateDoes(u);
    ReachedOn(one + two + three, four);
    steps := one + two + three + four;
  }
}
