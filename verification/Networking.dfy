/** Tearing a wire session down, among callers of the registry it knows nothing of: the process-local maps, and the guard
    against the transport's own callback. */
module Networking {
  import opened Substrate
  import opened Agents
  import opened Registry
  import opened RegistryMethods

  class HubNetworking {
    const seat: Seat
    var transports: set<string>
    var servers: set<string>
    var sseActive: set<string>
    var responses: set<string>
    var replacing: set<string>
    var activity: set<string>
    var cleaningUp: set<string>

    constructor (seat: Seat)
      ensures cleaningUp == {} && this.seat == seat
    {
      this.seat := seat;
      transports, servers, sseActive, responses, replacing, activity, cleaningUp := {}, {}, {}, {}, {}, {}, {};
    }

    ghost predicate Valid()
      reads this, seat
    {
      seat.Valid() && seat.me !in seat.world.calls
    }

    /** Nothing is left in this process's own maps of the session. */
    ghost predicate Evicted(s: string)
      reads this
    {
      s !in transports && s !in servers && s !in sseActive && s !in responses && s !in replacing && s !in activity
    }

    /** What they hold of every other session is as it was. */
    twostate predicate OthersKept(s: string)
      reads this
    {
      && transports - {s} == old(transports) - {s} && servers - {s} == old(servers) - {s} && sseActive - {s} == old(sseActive) - {s}
      && responses - {s} == old(responses) - {s} && replacing - {s} == old(replacing) - {s} && activity - {s} == old(activity) - {s}
      && cleaningUp == old(cleaningUp)
    }

    /** `cleanupSession`.  The registry's other callers act in every wait: while the transport is told and closed, and
        between the reads and writes of the agent row.  Closing the transport calls back into it, any number of times; each
        such call finds the guard set and does nothing.  For a displaced session the one thing done to the registry is to
        forget it in memory, so no agent row is written, whoever holds the agent by then.  Any other teardown takes
        an agent offline only at a moment at which the session is its current one, and undisturbed does so if it is. */
    method CleanupSession(s: string, displaced: bool, callbacks: nat, now: int) returns (written: bool, ghost at: World)
      requires Valid()
      modifies this, seat
      ensures Valid() && old(seat.trace) <= seat.trace
      ensures s in old(cleaningUp) ==> !written && unchanged(this) && unchanged(seat)
      ensures s !in old(cleaningUp) ==> Evicted(s) && OthersKept(s) && s !in seat.world.sessions
      ensures s !in old(cleaningUp) && displaced ==> !written && seat.own == old(seat.own) + [Forget(seat.me, s)]
      ensures written ==> exists a :: a in at.agents && at.agents[a].row.current == Some(s) && a in seat.world.agents && !seat.world.agents[a].row.online
      ensures s !in old(cleaningUp) && !displaced && (forall n :: seat.others(n) == []) ==> (written <==> HoldsAgent(old(seat.world), s))
      decreases if s in cleaningUp then 0 else 3
    {
      hide Do, RowsOk;
      written, at := false, seat.world;
      if s in cleaningUp { return; }
      cleaningUp := cleaningUp + {s};
      written, at := TearDown(s, displaced, callbacks, now);
      cleaningUp := cleaningUp - {s};
    }

    /** What the guard guards. */
    method TearDown(s: string, displaced: bool, callbacks: nat, now: int) returns (written: bool, ghost at: World)
      requires Valid() && s in cleaningUp
      modifies this, seat
      ensures Valid() && old(seat.trace) <= seat.trace && cleaningUp == old(cleaningUp)
      ensures transports == old(transports) - {s} && servers == old(servers) - {s} && sseActive == old(sseActive) - {s}
      ensures responses == old(responses) - {s} && replacing == old(replacing) - {s} && activity == old(activity) - {s}
      ensures s !in seat.world.sessions
      ensures displaced ==> !written && seat.own == old(seat.own) + [Forget(seat.me, s)]
      ensures written ==> exists a :: a in at.agents && at.agents[a].row.current == Some(s) && a in seat.world.agents && !seat.world.agents[a].row.online
      ensures !displaced && (forall n :: seat.others(n) == []) ==> (written <==> HoldsAgent(old(seat.world), s))
      decreases 2
    {
      hide Do, RowsOk;
      written, at := false, seat.world;
      var open := s in transports;
      if displaced && s in servers && s in sseActive { seat.Gap(""); }
      Unpublish(s);
      if open { Close(s, callbacks, now); }
      if !displaced { written, at := seat.MarkAgentOffline(s, now); }
      ForgetDoes(seat.world, seat.me, s);
      seat.Act(Forget(seat.me, s));
    }

    /** Every process-local capability of the session goes before anything is awaited. */
    method Unpublish(s: string)
      modifies `transports, `servers, `sseActive, `responses, `replacing, `activity
      ensures transports == old(transports) - {s} && servers == old(servers) - {s} && sseActive == old(sseActive) - {s}
      ensures responses == old(responses) - {s} && replacing == old(replacing) - {s} && activity == old(activity) - {s}
    {
      transports := transports - {s};
      servers := servers - {s};
      sseActive := sseActive - {s};
      responses := responses - {s};
      replacing := replacing - {s};
      activity := activity - {s};
    }

    /** The transport closes, others act meanwhile, and it fires its callback, which knows nothing of a displacement. */
    method Close(s: string, callbacks: nat, now: int)
      requires Valid() && s in cleaningUp
      modifies this, seat
      ensures Valid() && old(seat.trace) <= seat.trace && unchanged(this) && seat.own == old(seat.own)
      ensures (forall n :: seat.others(n) == []) ==> seat.world == old(seat.world)
      decreases 1
    {
      for i := 0 to callbacks
        invariant Valid() && old(seat.trace) <= seat.trace && unchanged(this) && seat.own == old(seat.own)
        invariant (forall n :: seat.others(n) == []) ==> seat.world == old(seat.world)
      {
        seat.Gap("");
        var written, at := CleanupSession(s, false, 0, now);
      }
      seat.Gap("");
    }

    /** A displaced session is evicted, and its transport's callback comes late, as often as it likes, with anything at all
        going on meanwhile: from the moment no agent has the session for its current one, no agent is taken offline in
        its name but after it has claimed that agent anew. */
    method EvictThenLateCallbacks(s: string, callbacks: nat, late: nat, now: int)
      requires Valid() && s !in cleaningUp && NobodysCurrent(seat.world, s)
      modifies this, seat
      ensures Valid() && Evicted(s) && OthersKept(s)
      ensures TornOnlyAfterClaim(old(seat.world), seat.world, s)
    {
      ghost var before := seat.trace;
      var written, at := CleanupSession(s, true, callbacks, now);
      for i := 0 to late
        invariant Valid() && before <= seat.trace && Evicted(s) && OthersKept(s)
      {
        seat.Gap("");
        written, at := CleanupSession(s, false, callbacks, now);
      }
      TeardownsComeAfterClaims(before, seat.trace[|before|..], s);
      assert before + seat.trace[|before|..] == seat.trace;
    }
  }

  lemma ForgetDoes(w: World, k: CallId, s: string)
    ensures Do(w, Forget(k, s)) == w.(sessions := w.sessions - {s})
  {
  }

  /* ------------------------------------------------------------------ what any run does with a displaced session */

  ghost predicate NobodysCurrent(w: World, s: string) {
    forall a | a in w.agents :: w.agents[a].row.current != Some(s)
  }

  /** How many writes had been committed to the agent's row. */
  function Committed(w: World, a: string): nat {
    if a in w.agents then |Lookup(w.past.hist, a)| else 0
  }

  /** Every teardown of the session that was written since came after a claim by it, also since. */
  ghost predicate TornOnlyAfterClaim(w: World, u: World, s: string) {
    forall a, j: nat | a in u.agents && Committed(w, a) <= j < Committed(u, a) && u.past.hist[a][j].op == MarkOffline(s) ::
      exists m: nat :: Committed(w, a) <= m < j && u.past.hist[a][m].op == Claim(s)
  }

  /** An agent there is stays, and its history only grows. */
  ghost predicate HistoryGrows(w: World, u: World) {
    forall a | a in w.agents && a in w.past.hist :: a in u.agents && a in u.past.hist && w.past.hist[a] <= u.past.hist[a]
  }

  lemma StepHistory(w: World, s: Step)
    requires RowsOk(w)
    ensures HistoryGrows(w, Do(w, s))
  {
    hide RowsOk, DoLoad, DoCommit, DoCreate, SameRows;
    if s.Create? { if s.k !in w.calls { CreateHistory(w, s); } }
    else if s.Load? { if s.k in w.calls && w.calls[s.k].Ready? { LoadShape(w, s.k, s.now); SameRowsHistory(w, DoLoad(w, s.k, s.now), s.k); } else { NoLoad(w, s.k, s.now); } }
    else if s.Commit? { if s.k in w.calls && w.calls[s.k].Loaded? { CommitsHistory(w, s.k); } else { NoCommit(w, s.k); } }
    else { hide Do; OtherRows(w, s); SameRowsHistory(w, Do(w, s), s.k); }
  }

  lemma SameRowsHistory(w: World, u: World, k: CallId)
    requires SameRows(w, u, k)
    ensures HistoryGrows(w, u)
  {
  }

  lemma CreateHistory(w: World, s: Step)
    requires s.Create?
    ensures HistoryGrows(w, DoCreate(w, s.k, s.agent, s.binding, s.now))
  {
    hide Minus, Owing;
  }

  lemma CommitsHistory(w: World, k: CallId)
    requires RowsOk(w) && k in w.calls && w.calls[k].Loaded?
    ensures HistoryGrows(w, DoCommit(w, k))
  {
    hide RowsOk, DoCommit, Apply;
    CommitKnows(w, k);
    if Wins(w, k) { CommitHistory(w, k); CommitWins(w, k); } else { CommitLoses(w, k); SameRowsHistory(w, DoCommit(w, k), k); }
  }

  lemma {:induction false} RunHistory(w: World, steps: seq<Step>)
    requires RowsOk(w)
    ensures HistoryGrows(w, Run(w, steps))
    decreases |steps|
  {
    hide RowsOk, Do;
    if steps != [] {
      StepRows(w, steps[0]);
      StepHistory(w, steps[0]);
      RunHistory(Do(w, steps[0]), steps[1..]);
    }
  }

  /** The last claim in a history, and that it is the last up to any later moment. */
  lemma {:induction false} LastClaimIs(h: seq<Event>, s: string) returns (m: nat)
    requires LastClaimant(h) == Some(s)
    ensures m < |h| && h[m].op == Claim(s) && forall n | m < n <= |h| :: LastClaimant(h[..n]) == Some(s)
    decreases |h|
  {
    var n := |h| - 1;
    assert h[..|h|] == h;
    if h[n].op.Claim? {
      m := n;
    } else {
      m := LastClaimIs(h[..n], s);
      forall i | m < i <= |h| ensures LastClaimant(h[..i]) == Some(s) { if i < |h| { assert h[..n][..i] == h[..i]; } }
    }
  }

  /** In any run: once a session is no agent's current one, every teardown of it that is written is of an agent it has
      claimed anew.  So whatever an eviction's late callbacks race with, they spare the replacement. */
  lemma TeardownsComeAfterClaims(steps: seq<Step>, more: seq<Step>, s: string)
    requires NobodysCurrent(Reached(steps), s)
    ensures TornOnlyAfterClaim(Reached(steps), Reached(steps + more), s)
  {
    hide Apply, Run, Do;
    InitRows();
    hide RowsOk;
    var w, u := Reached(steps), Reached(steps + more);
    RunRows(Init(), steps);
    RunRows(Init(), steps + more);
    RunHistory(w, more);
    RegistryMethods.RunAppend(Init(), steps, more);
    forall a, j: nat | a in u.agents && Committed(w, a) <= j < Committed(u, a) && u.past.hist[a][j].op == MarkOffline(s)
      ensures exists m: nat :: Committed(w, a) <= m < j && u.past.hist[a][m].op == Claim(s)
    {
      OneTeardown(w, u, s, a, j);
    }
  }

  lemma InitRows()
    ensures RowsOk(Init())
  {
  }

  lemma OneTeardown(w: World, u: World, s: string, a: string, j: nat)
    requires RowsOk(w) && RowsOk(u) && HistoryGrows(w, u) && NobodysCurrent(w, s)
    requires a in u.agents && Committed(w, a) <= j < Committed(u, a) && u.past.hist[a][j].op == MarkOffline(s)
    ensures exists m: nat :: Committed(w, a) <= m < j && u.past.hist[a][m].op == Claim(s)
  {
    hide Apply;
    assert Registry.RowOk(u, a);
    var h := u.past.hist[a];
    LinearPrefix(u.past.first[a], h, u.agents[a].row, j);
    CountersMatchHistory(u.past.first[a], h[..j], h[j].before);
    var m := LastClaimIs(h[..j], s);
    var n := Committed(w, a);
    if m < n {
      assert Registry.RowOk(w, a);
      assert h[..j][..n] == h[..n] == w.past.hist[a];
      CountersMatchHistory(w.past.first[a], w.past.hist[a], w.agents[a].row);
      assert false;
    }
  }
}
