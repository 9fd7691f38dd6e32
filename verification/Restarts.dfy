/** The restart count of every claim in every run whose clock does not go backwards. */
module Restarts {
  import opened Substrate
  import opened Agents
  import opened Registry
  import ClaimBreaker

  /** An agent's claims were committed in the order of their clock readings, none of them after the latest reading. */
  ghost predicate TimesOk(w: World, a: string) {
    a in w.past.hist && Ascending(ClaimTimes(w.past.hist[a])) && forall t | t in ClaimTimes(w.past.hist[a]) :: t <= w.past.clock
  }

  /** A claim read the clock after every claim that was committed before the row it has loaded. */
  ghost predicate CallOnTime(w: World, k: CallId) {
    k in w.calls && w.calls[k].Loaded? && var c := w.calls[k];
    c.op.Claim? ==>
      && c.now <= w.past.clock
      && (c.agent in w.agents && c.seen.rev == w.agents[c.agent].rev && c.agent in w.past.hist ==>
            forall t | t in ClaimTimes(w.past.hist[c.agent]) :: t <= c.now)
  }

  ghost predicate ClaimsOnTime(w: World) {
    w.past.steady ==>
      && (forall a {:trigger TimesOk(w, a)} | a in w.past.hist :: TimesOk(w, a))
      && (forall k {:trigger CallOnTime(w, k)} | k in w.calls && w.calls[k].Loaded? :: CallOnTime(w, k))
  }

  /** The clock moved on, or stood. */
  ghost predicate ClockOn(w: World, w': World) {
    w.past.clock <= w'.past.clock && (w'.past.steady ==> w.past.steady)
  }

  lemma SameRowsOnTime(w: World, w': World, k: CallId)
    requires ClaimsOnTime(w) && SameRows(w, w', k) && ClockOn(w, w')
    requires w'.past.steady && k in w'.calls && w'.calls[k].Loaded? ==> CallOnTime(w', k) || (k in w.calls && w'.calls[k] == w.calls[k])
    ensures ClaimsOnTime(w')
  {
    if w'.past.steady {
      forall a | a in w'.past.hist ensures TimesOk(w', a) { assert TimesOk(w, a); }
      forall j | j in w'.calls && w'.calls[j].Loaded? ensures CallOnTime(w', j) {
        if j in w.calls && w.calls[j] == w'.calls[j] { assert CallOnTime(w, j); }
      }
    }
  }

  lemma LoadClock(w: World, k: CallId, now: int)
    requires k in w.calls && w.calls[k].Ready?
    ensures var w' := DoLoad(w, k, now);
            && ClockOn(w, w')
            && (k in w'.calls && w.calls[k].op.Claim? ==> now <= w'.past.clock && (w'.past.steady ==> w.past.clock <= now))
  {
    hide Lookup, Applies;
  }

  lemma LoadOnTime(w: World, k: CallId, now: int)
    requires ClaimsOnTime(w) && k in w.calls && w.calls[k].Ready?
    ensures ClaimsOnTime(DoLoad(w, k, now))
  {
    hide ClaimsOnTime, DoLoad, SameRows, Applies;
    var w' := DoLoad(w, k, now);
    LoadShape(w, k, now);
    LoadClock(w, k, now);
    if w'.past.steady && k in w'.calls { LoadedNow(w, w', k, now); }
    SameRowsOnTime(w, w', k);
  }

  lemma LoadedNow(w: World, w': World, k: CallId, now: int)
    requires ClaimsOnTime(w) && SameRows(w, w', k) && w'.past.steady && w.past.steady && k in w.calls && k in w'.calls && w'.calls[k].Loaded? && w'.calls[k].now == now
    requires w'.calls[k].op.Claim? ==> w.past.clock <= now <= w'.past.clock
    ensures CallOnTime(w', k)
  {
    var a := w'.calls[k].agent;
    if a in w.past.hist { assert TimesOk(w, a); }
  }

  lemma ClaimTimesGrow(h: seq<Event>, e: Event)
    ensures ClaimTimes(h + [e]) == if e.op.Claim? then ClaimTimes(h) + [e.now] else ClaimTimes(h)
  {
    assert (h + [e])[..|h|] == h;
  }

  /** One row was written: either it is new, or its history gained a write that was on time. */
  lemma WriteOnTime(w: World, w': World, k: CallId, a: string)
    requires ClaimsOnTime(w) && RowsOk(w) && OneRowWritten(w, w', k, a) && ClockOn(w, w')
    requires a in w'.past.hist && w'.past.hist == w.past.hist[a := w'.past.hist[a]]
    requires w'.past.steady ==> TimesOk(w', a)
    ensures ClaimsOnTime(w')
  {
    if w'.past.steady {
      forall b | b in w'.past.hist ensures TimesOk(w', b) { if b != a { assert TimesOk(w, b); } }
      forall j | j in w'.calls && w'.calls[j].Loaded? ensures CallOnTime(w', j) {
        assert CallOnTime(w, j) && LoadedOk(w, j);
        assert w.calls[j].agent == a ==> w.calls[j].seen.rev <= w.rev;
      }
    }
  }

  lemma CreateOnTime(w: World, k: CallId, a: string, session: Option<string>, now: int)
    requires ClaimsOnTime(w) && RowsOk(w) && k !in w.calls && a !in w.agents
    ensures ClaimsOnTime(DoCreate(w, k, a, session, now))
  {
    hide RowsOk, ClaimsOnTime, Minus, Owing;
    WriteOnTime(w, DoCreate(w, k, a, session, now), k, a);
  }

  lemma WonOnTime(w: World, k: CallId)
    requires ClaimsOnTime(w) && RowsOk(w) && Wins(w, k) && w.calls[k].agent in w.past.hist
    ensures ClaimsOnTime(DoCommit(w, k))
  {
    hide RowsOk, ClaimsOnTime, DoCommit, Apply, Ascending;
    var c, w' := w.calls[k], DoCommit(w, k);
    CommitWins(w, k);
    CommitHistory(w, k);
    ClaimTimesGrow(w.past.hist[c.agent], Event(c.op, c.now, c.seen.row, Apply(c.seen.row, c.op, c.now)));
    if w'.past.steady { NextOnTime(w, k); LaterTimes(w, w', c.agent, c.op, c.now); }
    WriteOnTime(w, w', k, c.agent);
  }

  lemma NextOnTime(w: World, k: CallId)
    requires ClaimsOnTime(w) && w.past.steady && Wins(w, k) && w.calls[k].agent in w.past.hist
    ensures TimesOk(w, w.calls[k].agent)
    ensures var c := w.calls[k]; c.op.Claim? ==> c.now <= w.past.clock && forall t | t in ClaimTimes(w.past.hist[c.agent]) :: t <= c.now
  {
    assert CallOnTime(w, k) && TimesOk(w, w.calls[k].agent);
  }

  lemma LaterTimes(w: World, w': World, a: string, op: Op, now: int)
    requires TimesOk(w, a) && a in w'.past.hist && w.past.clock <= w'.past.clock
    requires ClaimTimes(w'.past.hist[a]) == if op.Claim? then ClaimTimes(w.past.hist[a]) + [now] else ClaimTimes(w.past.hist[a])
    requires op.Claim? ==> now <= w.past.clock && forall t | t in ClaimTimes(w.past.hist[a]) :: t <= now
    ensures TimesOk(w', a)
  {
    var old' := ClaimTimes(w.past.hist[a]);
    assert forall i | 0 <= i < |old'| :: old'[i] in old';
  }

  lemma OtherClock(w: World, s: Step)
    requires !s.Load? && !s.Commit?
    ensures Do(w, s).past.clock == w.past.clock && Do(w, s).past.steady == w.past.steady
  {
    if s.Restart? { hide Owing; } else { hide Do; ClaimBreaker.OtherBreaker(w, s); }
  }

  lemma StepOnTime(w: World, s: Step)
    requires RowsOk(w) && ClaimsOnTime(w)
    ensures ClaimsOnTime(Do(w, s))
  {
    hide RowsOk, ClaimsOnTime, DoLoad, DoCommit, SameRows, DoMirror, DoRestart, DoAbandon, DoCreate;
    if s.Load? { if s.k in w.calls && w.calls[s.k].Ready? { LoadOnTime(w, s.k, s.now); } else { NoLoad(w, s.k, s.now); } }
    else if s.Commit? { if s.k in w.calls && w.calls[s.k].Loaded? { CommitOnTime(w, s.k); } else { NoCommit(w, s.k); } }
    else if s.Create? { if s.k !in w.calls { if s.agent in w.agents { NoCreate(w, s); } else { CreateOnTime(w, s.k, s.agent, s.binding, s.now); } } }
    else { hide Do; OtherRows(w, s); OtherClock(w, s); SameRowsOnTime(w, Do(w, s), s.k); }
  }

  lemma NoCreate(w: World, s: Step)
    requires s.Create? && s.agent in w.agents
    ensures DoCreate(w, s.k, s.agent, s.binding, s.now) == w
  {
  }

  lemma CommitOnTime(w: World, k: CallId)
    requires RowsOk(w) && ClaimsOnTime(w) && k in w.calls && w.calls[k].Loaded?
    ensures ClaimsOnTime(DoCommit(w, k))
  {
    hide RowsOk, ClaimsOnTime, DoCommit;
    CommitKnows(w, k);
    if Wins(w, k) {
      WonOnTime(w, k);
    } else {
      CommitLoses(w, k);
      SameRowsOnTime(w, DoCommit(w, k), k);
    }
  }

  lemma {:induction false} RunOnTime(w: World, steps: seq<Step>)
    requires RowsOk(w) && ClaimsOnTime(w)
    ensures ClaimsOnTime(Run(w, steps))
    decreases |steps|
  {
    hide RowsOk, ClaimsOnTime, Do;
    if steps != [] {
      StepRows(w, steps[0]);
      StepOnTime(w, steps[0]);
      RunOnTime(Do(w, steps[0]), steps[1..]);
    }
  }

  lemma {:induction false} ClaimTimesOfPrefix(h: seq<Event>, n: nat)
    requires n <= |h|
    ensures ClaimTimes(h[..n]) <= ClaimTimes(h)
    decreases |h|
  {
    if n == |h| {
      assert h[..n] == h;
    } else {
      assert h[..|h| - 1][..n] == h[..n];
      ClaimTimesOfPrefix(h[..|h| - 1], n);
    }
  }

  lemma AscendingPrefix(a: seq<int>, b: seq<int>)
    requires a <= b && Ascending(b)
    ensures Ascending(a)
  {
    assert forall i | 0 <= i < |a| :: a[i] == b[i];
  }

  /** In every run whose clock does not go backwards, however claims race, retry and lose: at each committed claim,
      `restartCount` is the number of claims of the agent in the last day, this one included, or 50 if there were more. */
  lemma RestartCountIsExact(steps: seq<Step>, a: string, i: nat)
    requires var w := Reached(steps); w.past.steady && a in w.agents && a in w.past.hist && i < |w.past.hist[a]| && w.past.hist[a][i].op.Claim?
    ensures var h := Reached(steps).past.hist[a]; var n := |ClaimsOfTheDay(h, i, i + 1)|;
            h[i].after.restartCount == if n < 50 then n else 50
  {
    hide ClaimTimes, Recent;
    RecentCounts(Reached(steps).past.hist[a], i, i + 1);
    var w := Reached(steps);
    RunRows(Init(), steps);
    RunOnTime(Init(), steps);
    assert RowOk(w, a) && TimesOk(w, a);
    var h := w.past.hist[a];
    LinearPrefix(w.past.first[a], h, w.agents[a].row, i + 1);
    LinearPrefix(w.past.first[a], h, w.agents[a].row, i);
    ClaimTimesOfPrefix(h, i + 1);
    AscendingPrefix(ClaimTimes(h[..i + 1]), ClaimTimes(h));
    assert h[..i + 1][i] == h[i];
    LastLeaves(w.past.first[a], h[..i + 1], if i + 1 == |h| then w.agents[a].row else h[i + 1].before);
    OrderedRestartCount(w.past.first[a], h[..i + 1], h[i].after);
  }

  /** Of the first `n` events, the claims whose times lie within a day of event `i`. */
  function ClaimsOfTheDay(h: seq<Event>, i: nat, n: nat): set<nat>
    requires n <= |h| && i < |h|
  {
    set j | 0 <= j < n && h[j].op.Claim? && h[i].now - h[j].now <= 86400000
  }

  lemma OneMore(h: seq<Event>, i: nat, n: nat)
    requires n < |h| && i < |h|
    ensures |ClaimsOfTheDay(h, i, n + 1)| == |ClaimsOfTheDay(h, i, n)| + if h[n].op.Claim? && h[i].now - h[n].now <= 86400000 then 1 else 0
  {
    var before, all := ClaimsOfTheDay(h, i, n), ClaimsOfTheDay(h, i, n + 1);
    if h[n].op.Claim? && h[i].now - h[n].now <= 86400000 { assert all == before + {n}; } else { assert all == before; }
  }

  lemma {:induction false} RecentCounts(h: seq<Event>, i: nat, n: nat)
    requires n <= |h| && i < |h|
    ensures Recent(ClaimTimes(h[..n]), h[i].now) == |ClaimsOfTheDay(h, i, n)|
  {
    hide ClaimsOfTheDay;
    if n == 0 {
      assert ClaimsOfTheDay(h, i, 0) == {} by { OfNone(h, i); }
    } else {
      RecentCounts(h, i, n - 1);
      OneMore(h, i, n - 1);
      assert h[..n][..n - 1] == h[..n - 1];
      var times := ClaimTimes(h[..n - 1]);
      assert (times + [h[n - 1].now])[..|times|] == times;
    }
  }

  lemma OfNone(h: seq<Event>, i: nat)
    requires i < |h|
    ensures ClaimsOfTheDay(h, i, 0) == {}
  {
  }

  lemma LastLeaves(first: Agent, h: seq<Event>, row: Agent)
    requires Linear(first, h, row) && h != []
    ensures row == h[|h| - 1].after
  {
  }
}
