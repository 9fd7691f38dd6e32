/** The registry's methods, one storage operation at a time, among callers they know nothing about.

    As on the rail, a `Seat` is the world as one caller meets it: between any two of its own storage
    operations the others take any steps at all, short of restarting the process. */
module RegistryMethods {
  import opened Substrate
  import opened Agents
  import opened Registry
  import opened SessionIndex
  import opened SessionResolution
  import Breaker

  /* ------------------------------------------------------------------ lists kept in place */

  /** `appendRegisteredSession`: drop the session, push it last, shift while over the cap. */
  method AppendRegisteredSession(list: seq<string>, s: string) returns (next: seq<string>)
    ensures next == Append(list, s)
    ensures NoDuplicates(list) && |list| <= 8 ==> Appended(next, list, s)
  {
    next := Filter(list, s);
    next := next + [s];
    ghost var all := next;
    while |next| > SESSION_CAP
      invariant SESSION_CAP <= |next| <= |all| || next == all
      invariant |next| <= |all| && next == all[|all| - |next|..]
    {
      hide Without;
      assert next[1..] == all[|all| - |next| + 1..];
      next := next[1..];
    }
    if NoDuplicates(list) && |list| <= 8 { AppendKeeps(list, s); }
  }

  /** `list.filter((x) => x !== s)`. */
  method Filter(list: seq<string>, s: string) returns (rest: seq<string>)
    ensures rest == Without(list, s)
  {
    rest := [];
    for i := 0 to |list|
      invariant Without(list, s) == rest + Without(list[i..], s)
    {
      assert list[i..] == [list[i]] + list[i + 1..];
      if list[i] != s { rest := rest + [list[i]]; }
    }
  }

  /** The restart ring and its count: push the time, shift while over the cap, count the last day. */
  method PushRestart(history: seq<int>, now: int) returns (ring: seq<int>, count: nat)
    ensures ring == Newest(history + [now], RESTART_CAP) && count == Recent(ring, now)
  {
    ring := history + [now];
    ghost var all := ring;
    while |ring| > RESTART_CAP
      invariant RESTART_CAP <= |ring| <= |all| || ring == all
      invariant |ring| <= |all| && ring == all[|all| - |ring|..]
    {
      assert ring[1..] == all[|all| - |ring| + 1..];
      ring := ring[1..];
    }
    count := 0;
    for i := 0 to |ring|
      invariant count == Recent(ring[..i], now)
    {
      assert ring[..i + 1][..i] == ring[..i];
      if now - ring[i] <= DAY_MS { count := count + 1; }
    }
    assert ring[..|ring|] == ring;
  }

  /** `backfill` and `reconcile` name additions and evictions by set difference. */
  method Difference(xs: seq<string>, ys: seq<string>) returns (out: seq<string>)
    ensures out == Minus(xs, ys)
  {
    out := [];
    for i := 0 to |xs|
      invariant Minus(xs, ys) == out + Minus(xs[i..], ys)
    {
      assert xs[i..] == [xs[i]] + xs[i + 1..];
      if xs[i] !in ys { out := out + [xs[i]]; }
    }
  }

  /* ------------------------------------------------------------------ what others leave alone */

  /** Call `me` is just where it was. */
  predicate Kept(w: World, w': World, me: CallId) {
    (me in w.calls <==> me in w'.calls) && (me in w.calls ==> w'.calls[me] == w.calls[me])
  }

  lemma CreateKeeps(w: World, k: CallId, a: string, session: Option<string>, now: int, me: CallId)
    requires k != me
    ensures Kept(w, DoCreate(w, k, a, session, now), me)
  {
    hide Minus;
  }

  lemma CommitKeeps(w: World, k: CallId, me: CallId)
    requires k != me
    ensures Kept(w, DoCommit(w, k), me)
  {
    hide Minus, Apply;
  }

  lemma LoadKeeps(w: World, k: CallId, now: int, me: CallId)
    requires k != me
    ensures Kept(w, DoLoad(w, k, now), me)
  {
    hide Lookup, Applies;
  }

  lemma MirrorKeeps(w: World, k: CallId, ok: bool, me: CallId)
    requires k != me
    ensures Kept(w, DoMirror(w, k, ok), me)
  {
  }

  lemma StepKeeps(w: World, s: Step, me: CallId)
    requires s.k != me && !s.Restart?
    ensures Kept(w, Do(w, s), me)
  {
    hide DoCreate, DoCommit, DoLoad, DoMirror;
    match s
    case Create(k, a, binding, now) => CreateKeeps(w, k, a, binding, now, me);
    case Load(k, now) => LoadKeeps(w, k, now, me);
    case Commit(k) => CommitKeeps(w, k, me);
    case Mirror(k, ok) => MirrorKeeps(w, k, ok, me);
    case _ =>
  }

  lemma RowStays(w: World, s: Step, a: string)
    requires RowsOk(w) && a in w.agents
    ensures a in Do(w, s).agents && w.agents[a].rev <= Do(w, s).agents[a].rev
  {
    hide RowsOk, DoLoad, DoCommit, Apply;
    if s.Create? { if s.k !in w.calls && s.agent !in w.agents { hide Enrol; } }
    else if s.Load? { if s.k in w.calls && w.calls[s.k].Ready? { LoadShape(w, s.k, s.now); } else { NoLoad(w, s.k, s.now); } }
    else if s.Commit? { CommitStays(w, s.k, a); }
    else { hide Do; OtherRows(w, s); }
  }

  lemma CommitStays(w: World, k: CallId, a: string)
    requires RowsOk(w) && a in w.agents
    ensures a in DoCommit(w, k).agents && w.agents[a].rev <= DoCommit(w, k).agents[a].rev
  {
    hide RowsOk, DoCommit, Apply;
    if k in w.calls && w.calls[k].Loaded? {
      CommitKnows(w, k);
      RevsBounded(w, a);
      if Wins(w, k) { CommitWins(w, k); } else { CommitLoses(w, k); }
    } else {
      NoCommit(w, k);
    }
  }

  lemma RevsBounded(w: World, a: string)
    requires RowsOk(w) && a in w.agents
    ensures w.agents[a].rev <= w.rev
  {
  }

  lemma {:induction false} OthersLeaveMeAlone(w: World, steps: seq<Step>, me: CallId, a: string)
    requires RowsOk(w) && forall s | s in steps :: s.k != me && !s.Restart?
    ensures Kept(w, Run(w, steps), me)
    ensures a in w.agents ==> a in Run(w, steps).agents && w.agents[a].rev <= Run(w, steps).agents[a].rev
    decreases |steps|
  {
    hide RowsOk, Do;
    if steps != [] {
      assert steps[0] in steps;
      StepRows(w, steps[0]);
      StepKeeps(w, steps[0], me);
      if a in w.agents { RowStays(w, steps[0], a); }
      OthersLeaveMeAlone(Do(w, steps[0]), steps[1..], me, a);
    }
  }

  lemma {:induction false} RunAppend(w: World, a: seq<Step>, b: seq<Step>)
    ensures Run(w, a + b) == Run(Run(w, a), b)
    decreases |a|
  {
    hide Do;
    if a == [] {
      assert a + b == b;
    } else {
      assert (a + b)[0] == a[0] && (a + b)[1..] == a[1..] + b;
      RunAppend(Do(w, a[0]), a[1..], b);
    }
  }

  /* ------------------------------------------------------------------ the methods */

  datatype ClaimResult =
    | Claimed(epoch: nat, displaced: Option<(string, nat)>)
    | UnknownAgent
    | Thrashing
    | Contended

  datatype CountResult = Counted(n: nat) | NoAgent | GaveUp

  /** The breaker has tripped: the agent is stored online, and this attempt is at least the fourth in its window. */
  predicate Tripped(w: World, a: string) {
    a in w.agents && w.agents[a].row.online && a in w.windows && |w.windows[a]| > Breaker.THRESHOLD
  }

  /** The row as it stands turns the writer away: the session is not its current one, there is no mark to clear, or it is
      archived already. */
  predicate TurnsAway(a: Agent, op: Op) {
    match op
    case Touch(s) => a.current != Some(s)
    case MarkOffline(s) => a.current != Some(s)
    case ThrashReset => a.thrashCount == 0
    case Archive => a.archived
    case _ => false
  }

  /** The session is known, and is the current one of the agent it is known for. */
  predicate HoldsAgent(w: World, s: string) {
    s in w.sessions && w.sessions[s] in w.agents && w.agents[w.sessions[s]].row.current == Some(s)
  }

  /** The answer for a session: the agent memory has it for, if that is stored; else the agent its pointer row names, if that is
      stored and not archived; else none. */
  predicate Answers(w: World, s: string, r: Option<string>) {
    && (s in w.sessions && w.sessions[s] in w.agents ==> r == Some(w.sessions[s]))
    && (s !in w.sessions && s in w.bindings && w.bindings[s] in w.agents && !w.agents[w.bindings[s]].row.archived ==> r == Some(w.bindings[s]))
    && (s in w.sessions && w.sessions[s] !in w.agents ==> r == None)
    && (s !in w.sessions && (s !in w.bindings || w.bindings[s] !in w.agents || w.agents[w.bindings[s]].row.archived) ==> r == None)
  }

  datatype AssertResult = Born | Refreshed | Lost

  /** A first row: offline, unclaimed, with the session of the handshake, if it has one. */
  ghost predicate FirstRow(b: Agent, binding: Option<string>, now: int) {
    && !b.archived && b.epoch == 0 && b.current == None && !b.online && b.liveness == Offline && b.lastSeenAt == now && b.lastHeartbeatAt == now
    && b.registered == (if binding == None || binding == Some("") then [] else [binding.value])
    && b.restarts == [] && b.restartCount == 0 && b.thrashCount == 0 && b.startedAt == None && b.lastToolCallAt == None && b.lastTool == None
    && b.idleSince == None && b.workingSince == None && b.blockedUntil == None && b.activity == Away
  }

  /** A row refreshed by a handshake: back from the archive, heard of, the session put on its list; who holds it, since when, and
      what it is counted for stays. */
  ghost predicate RefreshedRow(b: Agent, a: Agent, binding: Option<string>, now: int) {
    && !b.archived && b.lastHeartbeatAt == now
    && (if binding == None || binding == Some("") then b.registered == a.registered else Appended(b.registered, a.registered, binding.value))
    && b.epoch == a.epoch && b.current == a.current && b.online == a.online && b.liveness == a.liveness && b.lastSeenAt == a.lastSeenAt
    && b.restarts == a.restarts && b.restartCount == a.restartCount && b.thrashCount == a.thrashCount && b.startedAt == a.startedAt
  }

  /** A row a claim leaves: the next epoch, the session current and last on the list, the one it displaced off it, the agent online
      and idle since now; what it is counted for, and when it was last seen, stays. */
  ghost predicate ClaimedRow(b: Agent, a: Agent, session: string, now: int) {
    && b.epoch == a.epoch + 1 && b.current == Some(session) && b.online && b.liveness == Online && b.activity == Idle
    && b.lastHeartbeatAt == now && b.startedAt == Some(now) && b.idleSince == Some(now) && b.workingSince == None
    && b.restarts != [] && b.restarts[|b.restarts| - 1] == now
    && b.registered != [] && b.registered[|b.registered| - 1] == session
    && (forall x | x in b.registered && x != session :: x in a.registered && (x == "" || a.current != Some(x)))
    && b.archived == a.archived && b.lastSeenAt == a.lastSeenAt && b.thrashCount == a.thrashCount
    && b.lastTool == a.lastTool && b.lastToolCallAt == a.lastToolCallAt && b.blockedUntil == a.blockedUntil
  }

  lemma ClaimClaims(a: Agent, session: string, now: int)
    requires TidyList(a.registered)
    ensures ClaimedRow(Apply(a, Claim(session), now), a, session, now)
  {
    hide Append, Recent, Newest, Ahead;
    ListAfter(a, Claim(session), now);
    assert Enlists(Claim(session), session);
    NewestEnds(a.restarts, now);
  }

  lemma NewestEnds(list: seq<int>, x: int)
    ensures var ring := Newest(list + [x], RESTART_CAP); ring != [] && ring[|ring| - 1] == x
  {
  }

  class Seat {
    const me: CallId
    const others: nat -> seq<Step>
    var world: World
    var gaps: nat
    ghost var trace: seq<Step>
    ghost var own: seq<Step>             // this caller's own steps

    ghost predicate Valid()
      reads this
    {
      world == Reached(trace) && forall n: nat, s | s in others(n) :: s.k != me && !s.Restart?
    }

    constructor (me: CallId, others: nat -> seq<Step>)
      requires forall n: nat, s | s in others(n) :: s.k != me && !s.Restart?
      ensures Valid() && world == Init() && this.me == me && this.others == others && own == []
    {
      this.me, this.others := me, others;
      world, gaps, trace, own := Init(), 0, [], [];
    }

    lemma Now()
      requires Valid()
      ensures RowsOk(world)
    {
      ReachedIndex(trace);
    }

    /** The gap before the next storage operation on agent `a`. */
    method Gap(a: string)
      requires Valid()
      modifies this
      ensures Valid() && old(trace) <= trace && Kept(old(world), world, me)
      ensures a in old(world).agents ==> a in world.agents && old(world).agents[a].rev <= world.agents[a].rev
      ensures others(old(gaps)) == [] ==> world == old(world)
      ensures gaps == old(gaps) + 1 && own == old(own)
    {
      hide RowsOk, Do, IndexOk;
      Now();
      OthersLeaveMeAlone(world, others(gaps), me, a);
      RunAppend(Init(), trace, others(gaps));
      world, trace := Run(world, others(gaps)), trace + others(gaps);
      gaps := gaps + 1;
    }

    method Act(s: Step)
      requires Valid()
      modifies this
      ensures Valid() && old(trace) <= trace && world == Do(old(world), s) && gaps == old(gaps) && own == old(own) + [s]
    {
      hide Do, RowsOk, IndexOk;
      RunAppend(Init(), trace, [s]);
      world, trace, own := Do(world, s), trace + [s], own + [s];
    }

    /** One compare-and-swap attempt: read, transform, commit.  `won` says the commit landed, as of `at`; `stopped` says the
        writer did not go on to the commit at all. */
    method Attempt(a: string, op: Op, tries: nat, now: int) returns (stopped: bool, won: bool, read: Option<Agent>, ghost at: World)
      requires Valid() && me in world.calls && world.calls[me] == Ready(a, op, tries)
      modifies this
      ensures Valid() && old(trace) <= trace && !(stopped && won)
      ensures stopped ==> me !in world.calls && (a !in world.agents || if op.Claim? then Tripped(world, a) else TurnsAway(world.agents[a].row, op))
      ensures won ==> Wins(at, me) && at.calls[me].agent == a && at.calls[me].op == op && at.agents[a] == at.calls[me].seen && RowsOk(at)
                      && at.calls[me].now == now && Applies(at.agents[a].row, op) && world == Do(at, Commit(me))
                      && a in world.agents && world.agents[a].row == Apply(at.agents[a].row, op, now) && read == Some(at.agents[a].row)
      ensures !stopped && !won ==>
                && a in world.agents && world.agents[a].rev > Revision(old(world).agents, a)
                && (if tries + 1 < Budget(op) then me in world.calls && world.calls[me] == Ready(a, op, tries + 1) else me !in world.calls)
      ensures (forall n :: others(n) == []) && !Registers(op) ==> world.sessions == old(world).sessions
      ensures a in old(world).agents ==> a in world.agents
      ensures (forall n :: others(n) == []) ==> (stopped ==> world.agents == old(world).agents) && (!stopped ==> won && at.agents == old(world).agents)
    {
      hide RowsOk, DoLoad, DoCommit, Apply, Applies, Attempted, Do, Tripped, TurnsAway, Registers, Reached;
      at := world;
      Gap(a);
      Now();
      LoadDoes(world, me, now);
      LoadIs(world, me, now);
      SessionsKept(world, me, now);
      Act(Load(me, now));
      if me !in world.calls { return true, false, None, at; }
      read := Some(world.calls[me].seen.row);
      Gap(a);
      at := world;
      Now();
      CommitKnows(world, me);
      won := world.agents[a].rev == world.calls[me].seen.rev;
      stopped := false;
      if won { CommitWins(world, me); } else { LostDoes(world, me); }
      CommitIs(world, me);
      SessionsKept(world, me, now);
      Act(Commit(me));
    }

    method PutAdditions(a: string, fails: nat -> bool)
      requires Valid() && me in world.calls && world.calls[me].Mirroring? && world.calls[me].agent == a
      modifies this
      ensures Valid() && old(trace) <= trace
      ensures var c := old(world).calls[me]; me in world.calls && world.calls[me] == Mirroring(a, [], c.dels, c.session, c.displaced)
      ensures (forall n :: others(n) == [] && !fails(n)) ==> world.bindings == PutAll(old(world).bindings, a, old(world).calls[me].adds)
    {
      hide DoMirror;
      var Mirroring(agent, adds, dels, session, displaced) := world.calls[me];
      for i := 0 to |adds|
        invariant Valid() && old(trace) <= trace && me in world.calls && world.calls[me] == Mirroring(a, adds[i..], dels, session, displaced)
        invariant (forall n :: others(n) == [] && !fails(n)) ==> world.bindings == PutAll(old(world).bindings, a, adds[..i])
      {
        Gap(a);
        MirrorDoes(world, me, !fails(i));
        assert adds[..i + 1][..i] == adds[..i];
        Act(Mirror(me, !fails(i)));
      }
      assert adds[..|adds|] == adds;
    }

    method DeleteEvictions(a: string, fails: nat -> bool)
      requires Valid() && me in world.calls && world.calls[me].Mirroring? && world.calls[me].agent == a && world.calls[me].adds == []
      modifies this
      ensures Valid() && old(trace) <= trace
      ensures var c := old(world).calls[me]; me in world.calls && world.calls[me] == Mirroring(a, [], [], c.session, c.displaced)
      ensures (forall n :: others(n) == [] && !fails(n)) ==> world.bindings == old(world).bindings - (set s | s in old(world).calls[me].dels)
    {
      hide DoMirror;
      var Mirroring(agent, adds, dels, session, displaced) := world.calls[me];
      for i := 0 to |dels|
        invariant Valid() && old(trace) <= trace && me in world.calls && world.calls[me] == Mirroring(a, [], dels[i..], session, displaced)
        invariant (forall n :: others(n) == [] && !fails(n)) ==> world.bindings == old(world).bindings - (set s | s in dels[..i])
      {
        Gap(a);
        MirrorDoes(world, me, !fails(i));
        assert dels[..i + 1] == dels[..i] + [dels[i]];
        Act(Mirror(me, !fails(i)));
      }
      assert dels[..|dels|] == dels;
    }

    /** `reconcileSessionBindings`, then the bookkeeping in memory: every addition is put, every eviction deleted,
        a failing write is passed over. */
    method Reconcile(a: string, fails: nat -> bool)
      requires Valid() && me in world.calls && world.calls[me].Mirroring? && world.calls[me].agent == a
      modifies this
      ensures Valid() && old(trace) <= trace && me !in world.calls
      ensures var c := old(world).calls[me]; c.session.Some? && c.displaced != c.session ==> c.session.value in world.sessions && world.sessions[c.session.value] == a
      ensures var c := old(world).calls[me]; c.displaced.Some? ==> c.displaced.value !in world.sessions
      ensures (forall n :: others(n) == [] && !fails(n)) ==>
                var c := old(world).calls[me]; world.bindings == PutAll(old(world).bindings, a, c.adds) - (set s | s in c.dels)
    {
      hide DoMirror;
      PutAdditions(a, fails);
      DeleteEvictions(a, fails);
      MirrorDoes(world, me, true);
      Act(Mirror(me, true));
    }

    /** `claimSession`: at most two attempts.  A claim that succeeds opens the next epoch and reports as displaced
        the claim before it, as of its commit; a failing one has left no claim. */
    method ClaimSession(a: string, session: string, clock: nat -> int, fails: nat -> bool) returns (r: ClaimResult, ghost at: World, ghost after: World)
      requires Valid() && me !in world.calls
      modifies this
      ensures Valid() && old(trace) <= trace && me !in world.calls
      ensures r.Claimed? ==>
                && a in at.agents && a in after.agents
                && (exists i: nat :: i < 2 && ClaimedRow(after.agents[a].row, at.agents[a].row, session, clock(i)))
                && r.epoch == after.agents[a].row.epoch
      ensures r.Claimed? ==>
                && a in at.past.hist && var h := at.past.hist[a];
                && r.epoch == Claims(h) + 1
                && r.displaced == (var last := LastClaimant(h); if Names(last) && last.value != session then Some((last.value, Claims(h))) else None)
                && session in world.sessions && world.sessions[session] == a
                && (r.displaced.Some? ==> r.displaced.value.0 !in world.sessions)
      ensures r.UnknownAgent? ==> a !in world.agents
      ensures r.Thrashing? ==> a in world.agents && Tripped(world, a)
      ensures (forall n :: others(n) == []) ==> !r.Contended? && (r.UnknownAgent? <==> a !in old(world).agents)
      ensures r.Contended? ==> Revision(world.agents, a) >= Revision(old(world).agents, a) + 2
    {
      hide Do, RowsOk, Apply, ClaimedRow;
      at, after := world, world;
      BeginDoes(world, me, a, Claim(session));
      Act(Begin(me, a, Claim(session)));
      for attempt := 0 to 2
        invariant Valid() && old(trace) <= trace
        invariant (forall n :: others(n) == []) ==> attempt == 0 && world.agents == old(world).agents
        invariant attempt < 2 ==> me in world.calls && world.calls[me] == Ready(a, Claim(session), attempt)
        invariant attempt == 2 ==> me !in world.calls
        invariant Revision(world.agents, a) >= Revision(old(world).agents, a) + attempt
      {
        var stopped, won, read;
        stopped, won, read, at := Attempt(a, Claim(session), attempt, clock(attempt));
        if stopped { return if a in world.agents then Thrashing else UnknownAgent, at, after; }
        if won {
          ClaimWon(at, me);
          ListsTidy(at, a);
          ClaimClaims(at.agents[a].row, session, clock(attempt));
          after := world;
          var epoch, displaced := world.agents[a].row.epoch, world.calls[me].displaced;
          Reconcile(a, fails);
          return Claimed(epoch, if displaced.Some? then Some((displaced.value, epoch - 1)) else None), at, after;
        }
      }
      r := Contended;
    }

    /** `assertIdentity`: creates the agent, or refreshes its row within two attempts, and mirrors its list.  `at` and `after` are the
        worlds before and after the write; others act before and after. */
    method AssertIdentity(a: string, binding: Option<string>, clock: nat -> int, fails: nat -> bool)
        returns (r: AssertResult, ghost at: World, ghost after: World)
      requires Valid() && me !in world.calls
      modifies this
      ensures Valid() && old(trace) <= trace && me !in world.calls
      ensures r.Born? ==> a !in at.agents && a in after.agents && FirstRow(after.agents[a].row, binding, clock(0))
      ensures r.Refreshed? ==> a in at.agents && a in after.agents && RefreshedRow(after.agents[a].row, at.agents[a].row, binding, clock(0))
      ensures (forall n :: others(n) == []) ==> !r.Lost?
      ensures r.Lost? ==> Revision(world.agents, a) >= Revision(old(world).agents, a) + 2
      ensures !r.Lost? && binding != None && binding != Some("") ==> binding.value in world.sessions && world.sessions[binding.value] == a
    {
      hide Do, RowsOk, Apply, FirstRow, RefreshedRow;
      at, after := world, world;
      if a !in world.agents {
        CreateDoes(world, me, a, binding, clock(0));
        Act(Create(me, a, binding, clock(0)));
        after := world;
        Reconcile(a, fails);
        return Born, at, after;
      }
      var op := Assert(binding, clock(0));
      BeginDoes(world, me, a, op);
      Act(Begin(me, a, op));
      for attempt := 0 to 2
        invariant Valid() && old(trace) <= trace && a in world.agents
        invariant (forall n :: others(n) == []) ==> attempt == 0
        invariant attempt < 2 ==> me in world.calls && world.calls[me] == Ready(a, op, attempt)
        invariant attempt == 2 ==> me !in world.calls
        invariant Revision(world.agents, a) >= Revision(old(world).agents, a) + attempt
      {
        var stopped, won, read;
        stopped, won, read, at := Attempt(a, op, attempt, clock(attempt));
        if won {
          AssertWon(at, me);
          after := world;
          Reconcile(a, fails);
          return Refreshed, at, after;
        }
      }
      r := Lost;
    }

    /** `recordWorkItemThrash`: five attempts.  A count it returns is the marks since the last reset, this one
        included; giving up means that another write came in between at each of them. */
    method RecordThrash(a: string, clock: nat -> int) returns (r: CountResult, ghost at: World)
      requires Valid() && me !in world.calls
      modifies this
      ensures Valid() && old(trace) <= trace && me !in world.calls
      ensures r.Counted? ==> a in at.past.hist && r.n == Thrashes(at.past.hist[a]) + 1 && a in world.agents && world.agents[a].row.thrashCount == r.n
      ensures r.NoAgent? ==> a !in world.agents
      ensures r.GaveUp? ==> Revision(world.agents, a) >= Revision(old(world).agents, a) + 5
    {
      hide Do, RowsOk, Apply;
      at := world;
      BeginDoes(world, me, a, ThrashUp);
      Act(Begin(me, a, ThrashUp));
      for attempt := 0 to 5
        invariant Valid() && old(trace) <= trace
        invariant attempt < 5 ==> me in world.calls && world.calls[me] == Ready(a, ThrashUp, attempt)
        invariant attempt == 5 ==> me !in world.calls
        invariant Revision(world.agents, a) >= Revision(old(world).agents, a) + attempt
      {
        var stopped, won, read;
        stopped, won, read, at := Attempt(a, ThrashUp, attempt, clock(attempt));
        if stopped { return NoAgent, at; }
        if won {
          ThrashWon(at, me);
          return Counted(read.value.thrashCount + 1), at;
        }
      }
      r := GaveUp;
    }

    /** `resetWorkItemThrash`: returns the count it cleared, or 0 when there was nothing to clear. */
    method ResetThrash(a: string, clock: nat -> int) returns (prior: nat, ghost at: World)
      requires Valid() && me !in world.calls
      modifies this
      ensures Valid() && old(trace) <= trace && me !in world.calls
      ensures prior > 0 ==> a in at.past.hist && prior == Thrashes(at.past.hist[a]) && a in world.agents && world.agents[a].row.thrashCount == 0
      ensures prior == 0 ==> a !in world.agents || world.agents[a].row.thrashCount == 0 || Revision(world.agents, a) >= Revision(old(world).agents, a) + 5
    {
      hide Do, RowsOk, Apply;
      at := world;
      BeginDoes(world, me, a, ThrashReset);
      Act(Begin(me, a, ThrashReset));
      for attempt := 0 to 5
        invariant Valid() && old(trace) <= trace
        invariant attempt < 5 ==> me in world.calls && world.calls[me] == Ready(a, ThrashReset, attempt)
        invariant attempt == 5 ==> me !in world.calls
        invariant Revision(world.agents, a) >= Revision(old(world).agents, a) + attempt
      {
        var stopped, won, read;
        stopped, won, read, at := Attempt(a, ThrashReset, attempt, clock(attempt));
        if stopped { return 0, at; }
        if won {
          ThrashWon(at, me);
          return read.value.thrashCount, at;
        }
      }
      prior := 0;
    }

    /** `markAgentOffline`: one attempt, and only while the session is the current one.  If nothing is written there is no
        agent for the session, it is not current, or another write came in between; the session is forgotten in any case. */
    method MarkAgentOffline(session: string, now: int) returns (written: bool, ghost at: World)
      requires Valid() && me !in world.calls
      modifies this
      ensures Valid() && old(trace) <= trace
      ensures session !in old(world).sessions ==> !written && world == old(world)
      ensures written ==>
                && session in old(world).sessions && var a := old(world).sessions[session];
                && a in at.agents && at.agents[a].row.current == Some(session) && a in world.agents && !world.agents[a].row.online
      ensures !written && session in old(world).sessions ==>
                var a := old(world).sessions[session];
                || a !in world.agents || world.agents[a].row.current != Some(session) || world.agents[a].rev > Revision(old(world).agents, a)
      ensures (forall n :: others(n) == []) ==> world.sessions == old(world).sessions - {session}
      ensures (forall n :: others(n) == []) ==> (written <==> HoldsAgent(old(world), session))
      ensures me !in world.calls
    {
      hide Do, RowsOk, Apply;
      at := world;
      if session !in world.sessions { return false, at; }
      var a := world.sessions[session];
      OfflineBegins(world, me, session);
      Act(Begin(me, a, MarkOffline(session)));
      var stopped, read;
      stopped, written, read, at := Attempt(a, MarkOffline(session), 0, now);
      if written { OfflineWrites(at.agents[a].row, session, now); OfflineEnds(at, me); }
    }

    /** `getAgentForSession`, undisturbed: what the pointer row and the agent row say, remembered in memory. */
    method GetAgentForSession(session: string) returns (r: Option<string>)
      requires Valid() && me !in world.calls
      modifies this
      ensures Valid() && old(trace) <= trace && me !in world.calls
      ensures r.Some? ==> r.value in world.agents
      ensures (forall n :: others(n) == []) ==> r == Resolve(old(world), session) && Answers(old(world), session, r)
      ensures (forall n :: others(n) == []) ==> world.sessions == if r.Some? then old(world).sessions[session := r.value] else old(world).sessions
    {
      if session in world.sessions {
        var a := world.sessions[session];
        Gap(a);
        return if a in world.agents then Some(a) else None;
      }
      Gap(session);
      LookUpDoes(world, me, session);
      Act(LookUp(me, session));
      if me !in world.calls {
        // Another call may have remembered the session meanwhile; then this one goes by that.
        return if session in world.sessions && world.sessions[session] in world.agents then Some(world.sessions[session]) else None;
      }
      var a := world.calls[me].agent;
      Gap(a);
      r := if a in world.agents && !world.agents[a].row.archived then Some(a) else None;
      RehydrateDoes(world, me);
      Act(Rehydrate(me));
    }
  }

  function PutAll(bindings: map<string, string>, a: string, adds: seq<string>): map<string, string> {
    if adds == [] then bindings else PutAll(bindings, a, adds[..|adds| - 1])[adds[|adds| - 1] := a]
  }

  lemma BeginDoes(w: World, me: CallId, a: string, op: Op)
    requires me !in w.calls && !op.Touch? && !op.MarkOffline?
    ensures var w' := Do(w, Begin(me, a, op)); w'.agents == w.agents && me in w'.calls && w'.calls[me] == Ready(a, op, 0)
  {
  }

  lemma OfflineBegins(w: World, me: CallId, session: string)
    requires me !in w.calls && session in w.sessions
    ensures var w' := Do(w, Begin(me, w.sessions[session], MarkOffline(session)));
            && me in w'.calls && w'.calls[me] == Ready(w.sessions[session], MarkOffline(session), 0)
            && w'.sessions == w.sessions - {session} && w'.agents == w.agents
  {
  }

  lemma OfflineEnds(at: World, me: CallId)
    requires Wins(at, me) && at.calls[me].op.MarkOffline?
    ensures me !in Do(at, Commit(me)).calls
  {
    PlainCommitEnds(at, me);
  }

  /** Neither read nor write touches the map in memory. */
  lemma SessionsKept(w: World, me: CallId, now: int)
    ensures DoLoad(w, me, now).sessions == w.sessions
    ensures me in w.calls && w.calls[me].Loaded? && !Registers(w.calls[me].op) ==> DoCommit(w, me).sessions == w.sessions
  {
    hide Apply, Applies;
  }

  lemma OfflineWrites(row: Agent, session: string, now: int)
    ensures !Apply(row, MarkOffline(session), now).online
  {
  }

  lemma LookUpDoes(w: World, me: CallId, session: string)
    requires me !in w.calls
    ensures var w' := Do(w, LookUp(me, session));
            if session !in w.sessions && session in w.bindings then me in w'.calls && w'.calls[me] == Found(session, w.bindings[session]) && w' == At(w, me, w'.calls[me])
            else w' == w
  {
  }

  lemma RehydrateDoes(w: World, me: CallId)
    requires me in w.calls && w.calls[me].Found?
    ensures var c := w.calls[me]; var w' := Do(w, Rehydrate(me));
            && me !in w'.calls
            && w'.sessions == if c.agent in w.agents && !w.agents[c.agent].row.archived then w.sessions[c.bound := c.agent] else w.sessions
  {
  }

  lemma ClaimWon(at: World, me: CallId)
    requires RowsOk(at) && Wins(at, me) && at.calls[me].op.Claim? && at.agents[at.calls[me].agent] == at.calls[me].seen
    ensures var c := at.calls[me]; var w := Do(at, Commit(me)); var d := Displaced(c.seen.row, c.op.session);
            && c.agent in at.past.hist && c.agent in w.agents && var h := at.past.hist[c.agent];
            && w.agents[c.agent].row.epoch == Claims(h) + 1
            && me in w.calls && w.calls[me].Mirroring? && w.calls[me].agent == c.agent && w.calls[me].session == Some(c.op.session)
            && w.calls[me].displaced == (if d.Some? then Some(d.value.0) else None)
            && d == (var last := LastClaimant(h); if Names(last) && last.value != c.op.session then Some((last.value, Claims(h))) else None)
  {
    hide RowsOk, Apply, DoCommit, Linear;
    var c := at.calls[me];
    CommitKnows(at, me);
    CommitWins(at, me);
    ClaimMirrors(at, me);
    CountersMatchHistory(at.past.first[c.agent], at.past.hist[c.agent], c.seen.row);
    ApplyCounts(c.seen.row, c.op, c.now);
  }

  lemma ClaimMirrors(w: World, me: CallId)
    requires Wins(w, me) && w.calls[me].op.Claim?
    ensures var c := w.calls[me]; var w' := DoCommit(w, me); var d := Displaced(c.seen.row, c.op.session);
            && me in w'.calls && w'.calls[me].Mirroring? && w'.calls[me].agent == c.agent && w'.calls[me].session == Some(c.op.session)
            && w'.calls[me].displaced == (if d.Some? then Some(d.value.0) else None)
  {
    hide Apply, Minus, Displaced, Accept, Lookup;
  }

  lemma CreateDoes(w: World, me: CallId, a: string, binding: Option<string>, now: int)
    requires me !in w.calls && a !in w.agents
    ensures var w' := Do(w, Create(me, a, binding, now));
            && a in w'.agents && FirstRow(w'.agents[a].row, binding, now)
            && me in w'.calls && w'.calls[me].Mirroring? && w'.calls[me].agent == a && w'.calls[me].displaced == None
            && w'.calls[me].session == (if binding == None || binding == Some("") then None else binding)
  {
    hide Minus, Owing;
  }

  lemma AssertWon(at: World, me: CallId)
    requires RowsOk(at) && Wins(at, me) && at.calls[me].op.Assert? && at.agents[at.calls[me].agent] == at.calls[me].seen
    ensures var c := at.calls[me]; var w := Do(at, Commit(me));
            && c.agent in w.agents && RefreshedRow(w.agents[c.agent].row, c.seen.row, c.op.binding, c.op.at)
            && me in w.calls && w.calls[me].Mirroring? && w.calls[me].agent == c.agent && w.calls[me].displaced == None
            && w.calls[me].session == (if c.op.binding == None || c.op.binding == Some("") then None else c.op.binding)
  {
    hide RowsOk, Apply, DoCommit, RefreshedRow;
    var c := at.calls[me];
    CommitKnows(at, me);
    CommitWins(at, me);
    AssertMirrors(at, me);
    ListsTidy(at, c.agent);
    AssertRefreshes(c.seen.row, c.op, c.now);
  }

  lemma AssertMirrors(w: World, me: CallId)
    requires Wins(w, me) && w.calls[me].op.Assert?
    ensures var c := w.calls[me]; var w' := DoCommit(w, me);
            && me in w'.calls && w'.calls[me].Mirroring? && w'.calls[me].agent == c.agent && w'.calls[me].displaced == None
            && w'.calls[me].session == (if c.op.binding == None || c.op.binding == Some("") then None else c.op.binding)
  {
    hide Apply, Minus, Displaced, Accept, Lookup, Owing;
  }

  lemma AssertRefreshes(a: Agent, op: Op, now: int)
    requires op.Assert? && TidyList(a.registered)
    ensures RefreshedRow(Apply(a, op, now), a, op.binding, op.at)
  {
    hide Append, Appended;
    if Names(op.binding) { AppendKeeps(a.registered, op.binding.value); }
  }

  lemma ThrashWon(at: World, me: CallId)
    requires RowsOk(at) && Wins(at, me) && at.agents[at.calls[me].agent] == at.calls[me].seen && (at.calls[me].op.ThrashUp? || at.calls[me].op.ThrashReset?)
    requires Applies(at.calls[me].seen.row, at.calls[me].op)
    ensures var c := at.calls[me]; var w := Do(at, Commit(me));
            && c.agent in at.past.hist && c.agent in w.agents && me !in w.calls && var n := Thrashes(at.past.hist[c.agent]);
            && c.seen.row.thrashCount == n && (c.op.ThrashReset? ==> n > 0)
            && w.agents[c.agent].row.thrashCount == if c.op.ThrashUp? then n + 1 else 0
  {
    hide RowsOk, Apply, DoCommit;
    var c := at.calls[me];
    CommitKnows(at, me);
    CommitWins(at, me);
    PlainCommitEnds(at, me);
    CountersMatchHistory(at.past.first[c.agent], at.past.hist[c.agent], c.seen.row);
    ApplyCounts(c.seen.row, c.op, c.now);
  }

  lemma PlainCommitEnds(w: World, me: CallId)
    requires Wins(w, me) && !Registers(w.calls[me].op)
    ensures me !in DoCommit(w, me).calls
  {
    hide Apply;
  }

  lemma LoadIs(w: World, me: CallId, now: int)
    ensures Do(w, Load(me, now)) == DoLoad(w, me, now)
  {
  }

  lemma CommitIs(w: World, me: CallId)
    ensures Do(w, Commit(me)) == DoCommit(w, me)
  {
  }

  lemma LoadDoes(w: World, me: CallId, now: int)
    requires me in w.calls && w.calls[me].Ready?
    ensures var c := w.calls[me]; var w' := DoLoad(w, me, now);
            && w'.agents == w.agents
            && if me in w'.calls then c.agent in w.agents && Applies(w.agents[c.agent].row, c.op)
                                      && w'.calls[me] == Loaded(c.agent, c.op, c.tries, w.agents[c.agent], now, w'.calls[me].ticket)
               else c.agent !in w.agents || if c.op.Claim? then Tripped(w', c.agent) else TurnsAway(w.agents[c.agent].row, c.op)
  {
    hide Attempted, Lookup;
    AttemptedKeeps(w, w.calls[me].agent, now);
  }

  lemma LostDoes(w: World, me: CallId)
    requires LoadedOk(w, me) && !Wins(w, me)
    ensures var c := w.calls[me]; var w' := DoCommit(w, me);
            && w'.agents == w.agents && w.agents[c.agent].rev > c.seen.rev
            && if c.tries + 1 < Budget(c.op) then me in w'.calls && w'.calls[me] == Ready(c.agent, c.op, c.tries + 1) else me !in w'.calls
  {
    hide Apply;
  }
}
