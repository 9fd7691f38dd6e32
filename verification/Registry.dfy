/** The agent registry as a machine: agent rows under compare-and-swap, the session pointer rows derived from
    them, the maps kept in memory, and any number of calls in flight.

    Each storage operation is a step; steps of different calls interleave freely.  `Do` is total: a step
    that does not apply leaves the world alone. */
module Registry {
  import opened Substrate
  import opened Agents
  import Breaker

  type CallId = nat

  datatype Call =
    | Ready(agent: string, op: Op, tries: nat)
    | Loaded(agent: string, op: Op, tries: nat, seen: Versioned<Agent>, now: int, ticket: Option<nat>)
    | Mirroring(agent: string, adds: seq<string>, dels: seq<string>, session: Option<string>, displaced: Option<string>)
    | Found(bound: string, agent: string)

  /** History variables: no step's outcome depends on them. */
  datatype Past = Past(
    first: map<string, Agent>,           // each row as created
    hist: map<string, seq<Event>>,       // and every write committed to it since
    lists: map<string, seq<seq<string>>>, // the list each registration left, per agent, the first one first
    version: map<CallId, nat>,           // which of these a call in flight is writing into the pointer rows
    wrote: map<string, (string, nat)>,   // the agent and the version whose write of a session's pointer row came last
    lapsed: set<(string, string)>,       // an agent and a session: a pointer write lost, or owed by two calls at once
    users: map<string, string>,          // the first agent each session registered with
    mixed: set<string>,                  // sessions that have registered with two agents
    attempts: map<string, seq<int>>,     // claim attempts that met a live session, since the last restart
    accepted: map<string, seq<nat>>,     // those of them that became committed claims
    clock: int,
    steady: bool)

  datatype World = World(
    rev: nat, agents: Table<Agent>, bindings: map<string, string>,
    sessions: map<string, string>, windows: map<string, seq<int>>,
    calls: map<CallId, Call>, past: Past)

  function Init(): World {
    World(0, map[], map[], map[], map[], map[], Past(map[], map[], map[], map[], map[], {}, map[], {}, map[], map[], 0, true))
  }

  datatype Step =
    | Create(k: CallId, agent: string, binding: Option<string>, now: int)
    | Begin(k: CallId, agent: string, op: Op)
    | Load(k: CallId, now: int)
    | Commit(k: CallId)
    | Mirror(k: CallId, ok: bool)
    | Refill(k: CallId, agent: string, session: string)
    | LookUp(k: CallId, session: string)
    | Rehydrate(k: CallId)
    | Forget(k: CallId, session: string)
    | Abandon(k: CallId)
    | Restart(k: CallId)

  function At(w: World, k: CallId, c: Call): World {
    w.(calls := w.calls[k := c])
  }

  function Done(w: World, k: CallId): World {
    w.(calls := w.calls - {k})
  }

  function Max(a: int, b: int): int {
    if a < b then b else a
  }

  /** The entries of `xs` that are not in `ys`, in order. */
  function Minus(xs: seq<string>, ys: seq<string>): seq<string> {
    if xs == [] then [] else if xs[0] in ys then Minus(xs[1..], ys) else [xs[0]] + Minus(xs[1..], ys)
  }

  /** How often a writer tries its compare-and-swap. */
  function Budget(op: Op): nat {
    match op
    case Assert(_, _) => 2
    case Claim(_) => 2
    case ThrashUp => 5
    case ThrashReset => 5
    case _ => 1
  }

  /** The session a write registers. */
  function Enrolee(op: Op): Option<string> {
    match op
    case Assert(s, _) => if Names(s) then s else None
    case Claim(s) => Some(s)
    case _ => None
  }

  predicate Registers(op: Op) {
    op.Assert? || op.Claim?
  }

  /** The call still has to write the pointer row of session `s` for agent `a`. */
  predicate Owes(c: Call, a: string, s: string) {
    c.Mirroring? && c.agent == a && (s in c.adds || s in c.dels)
  }

  predicate Owing(calls: map<CallId, Call>, a: string, s: string) {
    exists k | k in calls :: Owes(calls[k], a, s)
  }

  /** A committed registration: the pointer rows of the sessions it added or dropped are still to be written.  Two calls
      that owe one row at once, and a session registered with a second agent, are noted in the history. */
  function Enrol(w: World, k: CallId, a: string, before: seq<string>, after: seq<string>, s: Option<string>, displaced: Option<string>): World {
    var p, adds, dels := w.past, Minus(after, before), Minus(before, after);
    var w' := w.(past := p.(
      lists := p.lists[a := Lookup(p.lists, a) + [after]],
      version := p.version[k := |Lookup(p.lists, a)|],
      lapsed := p.lapsed + (set y | y in adds + dels && Owing(w.calls, a, y) :: (a, y)),
      users := if s.Some? && s.value !in p.users then p.users[s.value := a] else p.users,
      mixed := if s.Some? && s.value in p.users && p.users[s.value] != a then p.mixed + {s.value} else p.mixed));
    At(w', k, Mirroring(a, adds, dels, s, displaced))
  }

  function DoCreate(w: World, k: CallId, a: string, session: Option<string>, now: int): World {
    match CreateOnly(w.agents, a, Newborn(session, now), w.rev)
    case None => w
    case Some(t) =>
      var born := Newborn(session, now);
      var w' := w.(agents := t, rev := w.rev + 1, past := w.past.(first := w.past.first[a := born], hist := w.past.hist[a := []]));
      Enrol(w', k, a, [], born.registered, if Names(session) then session else None, None)
  }

  /** A touch or a teardown goes by the in-memory session map, and a teardown takes its entry out at once. */
  function DoBegin(w: World, k: CallId, a: string, op: Op): World {
    match op
    case Touch(s) => if s in w.sessions && w.sessions[s] == a then At(w, k, Ready(a, op, 0)) else w
    case MarkOffline(s) =>
      if s in w.sessions && w.sessions[s] == a then At(w.(sessions := w.sessions - {s}), k, Ready(a, op, 0)) else w
    case _ => At(w, k, Ready(a, op, 0))
  }

  function Lookup<T>(m: map<string, seq<T>>, a: string): seq<T> {
    if a in m then m[a] else []
  }

  /** A claim has read the clock. */
  function Ticked(w: World, op: Op, now: int): World {
    if op.Claim? then w.(past := w.past.(clock := Max(w.past.clock, now), steady := w.past.steady && w.past.clock <= now)) else w
  }

  /** A claim of an agent whose row says online is a displacement attempt. */
  function Attempted(w: World, a: string, now: int): World {
    w.(windows := w.windows[a := Breaker.Kept(Lookup(w.windows, a), now)],
       past := w.past.(attempts := w.past.attempts[a := Lookup(w.past.attempts, a) + [now]],
                       clock := Max(w.past.clock, now), steady := w.past.steady && w.past.clock <= now))
  }

  function DoLoad(w: World, k: CallId, now: int): World {
    if k in w.calls && w.calls[k].Ready? then
      var c := w.calls[k];
      if c.agent !in w.agents then Done(w, k)
      else
        var got := w.agents[c.agent];
        if c.op.Claim? && got.row.online then
          var w' := Attempted(w, c.agent, now);
          if |w'.windows[c.agent]| > Breaker.THRESHOLD then Done(w', k)
          else At(w', k, Loaded(c.agent, c.op, c.tries, got, now, Some(|Lookup(w.past.attempts, c.agent)|)))
        else if !Applies(got.row, c.op) then Done(w, k)
        else At(Ticked(w, c.op, now), k, Loaded(c.agent, c.op, c.tries, got, now, None))
    else w
  }

  function Accept(p: Past, a: string, ticket: Option<nat>): Past {
    if ticket.Some? then p.(accepted := p.accepted[a := Lookup(p.accepted, a) + [ticket.value]]) else p
  }

  function DoCommit(w: World, k: CallId): World {
    if k in w.calls && w.calls[k].Loaded? then
      var c := w.calls[k];
      var next := Apply(c.seen.row, c.op, c.now);
      match PutIfMatch(w.agents, c.agent, next, c.seen.rev, w.rev)
      case None => if c.tries + 1 < Budget(c.op) then At(w, k, Ready(c.agent, c.op, c.tries + 1)) else Done(w, k)
      case Some(t) =>
        var e := Event(c.op, c.now, c.seen.row, next);
        var past := Accept(w.past.(hist := w.past.hist[c.agent := Lookup(w.past.hist, c.agent) + [e]]), c.agent, c.ticket);
        var w' := w.(agents := t, rev := w.rev + 1, past := past);
        if Registers(c.op) then
          var d := if c.op.Claim? then Displaced(c.seen.row, c.op.session) else None;
          Enrol(w', k, c.agent, c.seen.row.registered, next.registered, Enrolee(c.op), if d.Some? then Some(d.value.0) else None)
        else Done(w', k)
    else w
  }

  /** A write of the session's pointer row reached the store, or did not. */
  function Marked(p: Past, k: CallId, a: string, s: string, ok: bool): Past {
    if ok then p.(wrote := p.wrote[s := (a, if k in p.version then p.version[k] else 0)]) else p.(lapsed := p.lapsed + {(a, s)})
  }

  /** One pointer write.  A failed one is logged and passed over. */
  function AddPointer(w: World, k: CallId, c: Call, ok: bool): World
    requires c.Mirroring? && c.adds != []
  {
    var w' := At(w, k, Mirroring(c.agent, c.adds[1..], c.dels, c.session, c.displaced));
    w'.(bindings := if ok then w.bindings[c.adds[0] := c.agent] else w.bindings, past := Marked(w.past, k, c.agent, c.adds[0], ok))
  }

  function DropPointer(w: World, k: CallId, c: Call, ok: bool): World
    requires c.Mirroring? && c.dels != []
  {
    var w' := At(w, k, Mirroring(c.agent, [], c.dels[1..], c.session, c.displaced));
    w'.(bindings := if ok then w.bindings - {c.dels[0]} else w.bindings, past := Marked(w.past, k, c.agent, c.dels[0], ok))
  }

  /** The in-memory bookkeeping that comes after the last. */
  function Remember(w: World, k: CallId, c: Call): World
    requires c.Mirroring?
  {
    var known := if c.session.Some? then w.sessions[c.session.value := c.agent] else w.sessions;
    Done(w.(sessions := if c.displaced.Some? then known - {c.displaced.value} else known), k)
  }

  function DoMirror(w: World, k: CallId, ok: bool): World {
    if k in w.calls && w.calls[k].Mirroring? then
      var c := w.calls[k];
      if c.adds != [] then AddPointer(w, k, c, ok) else if c.dels != [] then DropPointer(w, k, c, ok) else Remember(w, k, c)
    else w
  }

  /** The number of the list an agent has. */
  function Current(lists: map<string, seq<seq<string>>>, a: string): nat {
    var n := |Lookup(lists, a)|; if n == 0 then 0 else n - 1
  }

  /** The backfill at boot has listed an agent, and will put the pointer row of one of its sessions. */
  function DoRefill(w: World, k: CallId, a: string, s: string): World {
    if a in w.agents && !w.agents[a].row.archived && s in w.agents[a].row.registered then
      At(w.(past := w.past.(version := w.past.version[k := Current(w.past.lists, a)])), k, Mirroring(a, [s], [], None, None))
    else w
  }

  /** Resolving a session that is not in memory: the pointer row, then the agent row. */
  function DoLookUp(w: World, k: CallId, s: string): World {
    if s !in w.sessions && s in w.bindings then At(w, k, Found(s, w.bindings[s])) else w
  }

  function DoRehydrate(w: World, k: CallId): World {
    if k in w.calls && w.calls[k].Found? then
      var c := w.calls[k];
      if c.agent in w.agents && !w.agents[c.agent].row.archived then Done(w.(sessions := w.sessions[c.bound := c.agent]), k)
      else Done(w, k)
    else w
  }

  function DoAbandon(w: World, k: CallId): World {
    if k in w.calls && w.calls[k].Mirroring? then
      var c := w.calls[k];
      Done(w.(past := w.past.(lapsed := w.past.lapsed + (set s | s in c.adds + c.dels :: (c.agent, s)))), k)
    else Done(w, k)
  }

  function AllOwed(calls: map<CallId, Call>): set<(string, string)> {
    set k, s | k in calls && calls[k].Mirroring? && s in calls[k].adds + calls[k].dels :: (calls[k].agent, s)
  }

  /** The process dies: the maps in memory and every call in flight are gone. */
  function DoRestart(w: World): World {
    w.(sessions := map[], windows := map[], calls := map[],
       past := w.past.(lapsed := w.past.lapsed + AllOwed(w.calls), attempts := map[], accepted := map[]))
  }

  predicate Opens(s: Step) {
    s.Create? || s.Begin? || s.Refill? || s.LookUp?
  }

  function Do(w: World, s: Step): World {
    if Opens(s) && s.k in w.calls then w
    else
      match s
      case Create(k, a, binding, now) => DoCreate(w, k, a, binding, now)
      case Begin(k, a, op) => DoBegin(w, k, a, op)
      case Load(k, now) => DoLoad(w, k, now)
      case Commit(k) => DoCommit(w, k)
      case Mirror(k, ok) => DoMirror(w, k, ok)
      case Refill(k, a, session) => DoRefill(w, k, a, session)
      case LookUp(k, session) => DoLookUp(w, k, session)
      case Rehydrate(k) => DoRehydrate(w, k)
      case Forget(k, session) => w.(sessions := w.sessions - {session})
      case Abandon(k) => DoAbandon(w, k)
      case Restart(_) => DoRestart(w)
  }

  function Run(w: World, steps: seq<Step>): World
    decreases |steps|
  {
    if steps == [] then w else Run(Do(w, steps[0]), steps[1..])
  }

  function Reached(steps: seq<Step>): World {
    Run(Init(), steps)
  }

  /* ------------------------------------------------------------------ no write is lost */

  ghost predicate RowOk(w: World, a: string) {
    && a in w.agents && a in w.past.first && a in w.past.hist
    && Unclaimed(w.past.first[a]) && TidyList(w.past.first[a].registered) && |w.past.first[a].registered| <= 1
    && Linear(w.past.first[a], w.past.hist[a], w.agents[a].row)
  }

  ghost predicate LoadedOk(w: World, k: CallId) {
    k in w.calls && w.calls[k].Loaded? && var c := w.calls[k];
    && c.agent in w.agents && c.seen.rev <= w.agents[c.agent].rev
    && (c.seen.rev == w.agents[c.agent].rev ==> w.agents[c.agent] == c.seen)
    && Applies(c.seen.row, c.op)
  }

  ghost predicate RowsOk(w: World) {
    match w case World(rev, agents, _, _, _, calls, _) =>
      && Bounded(agents, rev)
      && (forall a {:trigger RowOk(w, a)} | a in agents :: RowOk(w, a))
      && (forall k {:trigger LoadedOk(w, k)} | k in calls && calls[k].Loaded? :: LoadedOk(w, k))
  }

  /** No call but `k` has anything more to it than before. */
  ghost predicate OnlyCall(calls: map<CallId, Call>, calls': map<CallId, Call>, k: CallId) {
    forall j {:trigger j in calls'} | j in calls' && j != k :: j in calls && calls'[j] == calls[j]
  }

  lemma CallMoves(calls: map<CallId, Call>, k: CallId, c: Call)
    ensures OnlyCall(calls, calls[k := c], k) && OnlyCall(calls, calls - {k}, k) && OnlyCall(calls, calls, k) && OnlyCall(calls, map[], k)
  {
  }

  /** What only a create or a winning commit changes. */
  ghost predicate SameRows(w: World, w': World, k: CallId) {
    && w'.agents == w.agents && w'.rev == w.rev && w'.past.first == w.past.first && w'.past.hist == w.past.hist
    && OnlyCall(w.calls, w'.calls, k)
  }

  lemma SameRowsOk(w: World, w': World, k: CallId)
    requires RowsOk(w) && SameRows(w, w', k)
    requires k in w'.calls && w'.calls[k].Loaded? ==> LoadedOk(w', k) || (k in w.calls && w.calls[k] == w'.calls[k])
    ensures RowsOk(w')
  {
    forall a | a in w'.agents ensures RowOk(w', a) { assert RowOk(w, a); }
    forall j | j in w'.calls && w'.calls[j].Loaded? ensures LoadedOk(w', j) {
      if j in w.calls && w.calls[j] == w'.calls[j] { assert LoadedOk(w, j); }
    }
  }

  /** One row was written, and the calls that have a row loaded are among those that had. */
  ghost predicate OneRowWritten(w: World, w': World, k: CallId, a: string) {
    && w'.rev == w.rev + 1 && a in w'.agents && w'.agents[a].rev == w'.rev && w'.agents == w.agents[a := w'.agents[a]]
    && (forall b | b in w.past.first && b != a :: b in w'.past.first && w'.past.first[b] == w.past.first[b])
    && (forall b | b in w.past.hist && b != a :: b in w'.past.hist && w'.past.hist[b] == w.past.hist[b])
    && OnlyCall(w.calls, w'.calls, k) && (k in w'.calls ==> !w'.calls[k].Loaded?)
  }

  lemma OneRowWrittenOk(w: World, w': World, k: CallId, a: string)
    requires RowsOk(w) && OneRowWritten(w, w', k, a) && RowOk(w', a)
    ensures RowsOk(w')
  {
    forall b | b in w'.agents ensures RowOk(w', b) { if b != a { assert RowOk(w, b); } }
    forall j | j in w'.calls && w'.calls[j].Loaded? ensures LoadedOk(w', j) { assert LoadedOk(w, j); }
  }

  lemma CreateRows(w: World, k: CallId, a: string, session: Option<string>, now: int)
    requires RowsOk(w) && k !in w.calls && a !in w.agents
    ensures RowsOk(DoCreate(w, k, a, session, now))
  {
    hide RowsOk, Minus;
    OneRowWrittenOk(w, DoCreate(w, k, a, session, now), k, a);
  }

  lemma CommitKnows(w: World, k: CallId)
    requires RowsOk(w) && k in w.calls && w.calls[k].Loaded?
    ensures LoadedOk(w, k) && RowOk(w, w.calls[k].agent)
  {
    assert LoadedOk(w, k);
  }

  /** The row last loaded is still the one stored. */
  predicate Wins(w: World, k: CallId) {
    && k in w.calls && w.calls[k].Loaded?
    && w.calls[k].agent in w.agents && w.agents[w.calls[k].agent].rev == w.calls[k].seen.rev
  }

  lemma CommitLoses(w: World, k: CallId)
    requires k in w.calls && w.calls[k].Loaded? && !Wins(w, k)
    ensures var w' := DoCommit(w, k); SameRows(w, w', k) && (k in w'.calls ==> w'.calls[k].Ready?) && w' == w.(calls := w'.calls)
  {
    hide Apply;
  }

  /** What a winning commit does to the rows and their history. */
  lemma CommitWins(w: World, k: CallId)
    requires Wins(w, k) && w.calls[k].agent in w.past.hist
    ensures var c := w.calls[k]; var w' := DoCommit(w, k);
            && OneRowWritten(w, w', k, c.agent) && w'.agents[c.agent].row == Apply(c.seen.row, c.op, c.now) && w'.past.first == w.past.first
            && c.agent in w'.past.hist && w'.past.hist[c.agent] == w.past.hist[c.agent] + [Event(c.op, c.now, c.seen.row, Apply(c.seen.row, c.op, c.now))]
  {
    hide Apply, Minus, Displaced, Enrolee, Accept, Enrol;
    var c := w.calls[k];
    var next := Apply(c.seen.row, c.op, c.now);
    var past := w.past.(hist := w.past.hist[c.agent := Lookup(w.past.hist, c.agent) + [Event(c.op, c.now, c.seen.row, next)]]);
    AcceptKeeps(past, c.agent, c.ticket);
    var u := w.(agents := w.agents[c.agent := Versioned(next, w.rev + 1)], rev := w.rev + 1, past := Accept(past, c.agent, c.ticket));
    var d := if c.op.Claim? then Displaced(c.seen.row, c.op.session) else None;
    EnrolKeeps(u, k, c.agent, c.seen.row.registered, next.registered, Enrolee(c.op), if d.Some? then Some(d.value.0) else None);
  }

  lemma AcceptKeeps(p: Past, a: string, ticket: Option<nat>)
    ensures Accept(p, a, ticket) == p.(accepted := Accept(p, a, ticket).accepted)
  {
  }

  lemma EnrolKeeps(w: World, k: CallId, a: string, before: seq<string>, after: seq<string>, s: Option<string>, displaced: Option<string>)
    ensures var w' := Enrol(w, k, a, before, after, s, displaced);
            && w'.agents == w.agents && w'.rev == w.rev && w'.past.first == w.past.first && w'.past.hist == w.past.hist
            && w'.past.clock == w.past.clock && w'.past.steady == w.past.steady
            && k in w'.calls && w'.calls[k].Mirroring? && w'.calls == w.calls[k := w'.calls[k]]
  {
    hide Minus, Owing;
  }

  /** And to the history and the clock. */
  lemma CommitHistory(w: World, k: CallId)
    requires Wins(w, k)
    ensures var c := w.calls[k]; var w' := DoCommit(w, k);
            && w'.past.hist == w.past.hist[c.agent := Lookup(w.past.hist, c.agent) + [Event(c.op, c.now, c.seen.row, Apply(c.seen.row, c.op, c.now))]]
            && w'.past.clock == w.past.clock && w'.past.steady == w.past.steady
  {
    hide Apply, Displaced, Enrolee, Accept, Enrol;
    var c := w.calls[k];
    var next := Apply(c.seen.row, c.op, c.now);
    var past := w.past.(hist := w.past.hist[c.agent := Lookup(w.past.hist, c.agent) + [Event(c.op, c.now, c.seen.row, next)]]);
    AcceptKeeps(past, c.agent, c.ticket);
    var u := w.(agents := w.agents[c.agent := Versioned(next, w.rev + 1)], rev := w.rev + 1, past := Accept(past, c.agent, c.ticket));
    var d := if c.op.Claim? then Displaced(c.seen.row, c.op.session) else None;
    EnrolKeeps(u, k, c.agent, c.seen.row.registered, next.registered, Enrolee(c.op), if d.Some? then Some(d.value.0) else None);
  }

  lemma CommitRows(w: World, k: CallId)
    requires RowsOk(w) && k in w.calls && w.calls[k].Loaded?
    ensures RowsOk(DoCommit(w, k))
  {
    hide RowsOk, DoCommit, Apply, Applies, Linear;
    var c := w.calls[k];
    CommitKnows(w, k);
    if Wins(w, k) {
      CommitWins(w, k);
      LinearExtends(w.past.first[c.agent], w.past.hist[c.agent], c.seen.row, c.op, c.now);
      OneRowWrittenOk(w, DoCommit(w, k), k, c.agent);
    } else {
      CommitLoses(w, k);
      SameRowsOk(w, DoCommit(w, k), k);
    }
  }

  lemma AttemptedKeeps(w: World, a: string, now: int)
    ensures var w' := Attempted(w, a, now);
            && w'.agents == w.agents && w'.rev == w.rev && w'.calls == w.calls && w'.past.first == w.past.first && w'.past.hist == w.past.hist
            && a in w'.windows
  {
  }

  lemma LoadShape(w: World, k: CallId, now: int)
    requires k in w.calls && w.calls[k].Ready?
    ensures var w' := DoLoad(w, k, now); var c := w.calls[k];
            && SameRows(w, w', k)
            && (k in w'.calls ==>
                  c.agent in w.agents && w'.calls[k] == Loaded(c.agent, c.op, c.tries, w.agents[c.agent], now, w'.calls[k].ticket)
                  && Applies(w.agents[c.agent].row, c.op))
  {
    hide Attempted, Ticked, Lookup, OnlyCall;
    var c := w.calls[k];
    AttemptedKeeps(w, c.agent, now);
    TickedKeeps(w, c.op, now);
    if k in DoLoad(w, k, now).calls { CallMoves(w.calls, k, DoLoad(w, k, now).calls[k]); } else { CallMoves(w.calls, k, c); }
  }

  lemma TickedKeeps(w: World, op: Op, now: int)
    ensures var w' := Ticked(w, op, now);
            && w'.agents == w.agents && w'.rev == w.rev && w'.calls == w.calls && w'.past.first == w.past.first && w'.past.hist == w.past.hist
            && w'.windows == w.windows && w'.bindings == w.bindings && w'.sessions == w.sessions
            && w'.past.attempts == w.past.attempts && w'.past.accepted == w.past.accepted
  {
  }

  lemma LoadRows(w: World, k: CallId, now: int)
    requires RowsOk(w) && k in w.calls && w.calls[k].Ready?
    ensures RowsOk(DoLoad(w, k, now))
  {
    hide RowsOk, DoLoad, Applies;
    LoadShape(w, k, now);
    SameRowsOk(w, DoLoad(w, k, now), k);
  }

  lemma StepRows(w: World, s: Step)
    requires RowsOk(w)
    ensures RowsOk(Do(w, s))
  {
    hide RowsOk, DoLoad, DoCommit, SameRows, DoMirror, DoRestart, DoAbandon;
    if s.Create? { if s.k !in w.calls && s.agent !in w.agents { CreateRows(w, s.k, s.agent, s.binding, s.now); } }
    else if s.Load? { if s.k in w.calls && w.calls[s.k].Ready? { LoadRows(w, s.k, s.now); } else { NoLoad(w, s.k, s.now); } }
    else if s.Commit? { if s.k in w.calls && w.calls[s.k].Loaded? { CommitRows(w, s.k); } else { NoCommit(w, s.k); } }
    else { OtherRows(w, s); SameRowsOk(w, Do(w, s), s.k); }
  }

  /** Nothing the displacement breaker looks at changed, calls aside. */
  ghost predicate SameWindows(w: World, w': World) {
    && w'.windows == w.windows && w'.past.attempts == w.past.attempts && w'.past.accepted == w.past.accepted
    && w'.past.clock == w.past.clock && w'.past.steady == w.past.steady
  }

  lemma AddDoes(w: World, k: CallId, c: Call, ok: bool)
    requires c.Mirroring? && c.adds != []
    ensures var w' := AddPointer(w, k, c, ok);
            && w'.agents == w.agents && w'.calls == w.calls[k := Mirroring(c.agent, c.adds[1..], c.dels, c.session, c.displaced)]
            && w'.bindings == (if ok then w.bindings[c.adds[0] := c.agent] else w.bindings) && w'.past == Marked(w.past, k, c.agent, c.adds[0], ok)
            && w'.rev == w.rev && w'.past.first == w.past.first && w'.past.hist == w.past.hist && SameWindows(w, w')
  {
  }

  lemma DropDoes(w: World, k: CallId, c: Call, ok: bool)
    requires c.Mirroring? && c.dels != []
    ensures var w' := DropPointer(w, k, c, ok);
            && w'.agents == w.agents && w'.calls == w.calls[k := Mirroring(c.agent, [], c.dels[1..], c.session, c.displaced)]
            && w'.bindings == (if ok then w.bindings - {c.dels[0]} else w.bindings) && w'.past == Marked(w.past, k, c.agent, c.dels[0], ok)
            && w'.rev == w.rev && w'.past.first == w.past.first && w'.past.hist == w.past.hist && SameWindows(w, w')
  {
  }

  lemma RememberDoes(w: World, k: CallId, c: Call)
    requires c.Mirroring?
    ensures var w' := Remember(w, k, c);
            && w'.agents == w.agents && w'.calls == w.calls - {k} && w'.bindings == w.bindings
            && w'.rev == w.rev && w'.past.first == w.past.first && w'.past.hist == w.past.hist && SameWindows(w, w')
            && (c.session.Some? && c.displaced != c.session ==> c.session.value in w'.sessions && w'.sessions[c.session.value] == c.agent)
            && (c.displaced.Some? ==> c.displaced.value !in w'.sessions)
  {
  }

  /** What one pointer write does, and what comes after the last. */
  lemma MirrorDoes(w: World, me: CallId, ok: bool)
    requires me in w.calls && w.calls[me].Mirroring?
    ensures var c := w.calls[me]; var w' := DoMirror(w, me, ok);
            && w'.agents == w.agents
            && if c.adds != [] then
                 && w'.calls == w.calls[me := Mirroring(c.agent, c.adds[1..], c.dels, c.session, c.displaced)]
                 && w'.bindings == (if ok then w.bindings[c.adds[0] := c.agent] else w.bindings)
               else if c.dels != [] then
                 && w'.calls == w.calls[me := Mirroring(c.agent, [], c.dels[1..], c.session, c.displaced)]
                 && w'.bindings == (if ok then w.bindings - {c.dels[0]} else w.bindings)
               else
                 && w'.calls == w.calls - {me} && w'.bindings == w.bindings
                 && (c.session.Some? && c.displaced != c.session ==> c.session.value in w'.sessions && w'.sessions[c.session.value] == c.agent)
                 && (c.displaced.Some? ==> c.displaced.value !in w'.sessions)
  {
    hide AddPointer, DropPointer, Remember;
    var c := w.calls[me];
    if c.adds != [] { AddDoes(w, me, c, ok); } else if c.dels != [] { DropDoes(w, me, c, ok); } else { RememberDoes(w, me, c); }
  }

  lemma MirrorRows(w: World, k: CallId, ok: bool)
    ensures SameRows(w, DoMirror(w, k, ok), k)
    ensures var w' := DoMirror(w, k, ok); k in w'.calls && w'.calls[k].Loaded? ==> k in w.calls && w.calls[k] == w'.calls[k]
  {
    hide OnlyCall, AddPointer, DropPointer, Remember;
    CallMoves(w.calls, k, Found("", ""));
    if k in w.calls && w.calls[k].Mirroring? {
      var c := w.calls[k];
      if c.adds != [] {
        AddDoes(w, k, c, ok);
        CallMoves(w.calls, k, Mirroring(c.agent, c.adds[1..], c.dels, c.session, c.displaced));
      } else if c.dels != [] {
        DropDoes(w, k, c, ok);
        CallMoves(w.calls, k, Mirroring(c.agent, [], c.dels[1..], c.session, c.displaced));
      } else {
        RememberDoes(w, k, c);
      }
    }
  }

  lemma AbandonRows(w: World, k: CallId)
    ensures SameRows(w, DoAbandon(w, k), k) && k !in DoAbandon(w, k).calls
  {
    hide OnlyCall;
    CallMoves(w.calls, k, Found("", ""));
  }

  lemma RestartRows(w: World, k: CallId)
    ensures SameRows(w, DoRestart(w), k) && k !in DoRestart(w).calls
  {
    hide OnlyCall;
    CallMoves(w.calls, k, Found("", ""));
  }

  lemma BeginRows(w: World, k: CallId, a: string, op: Op)
    requires k !in w.calls
    ensures SameRows(w, DoBegin(w, k, a, op), k) && (k in DoBegin(w, k, a, op).calls ==> !DoBegin(w, k, a, op).calls[k].Loaded?)
  {
    hide OnlyCall;
    CallMoves(w.calls, k, Ready(a, op, 0));
  }

  lemma RefillRows(w: World, k: CallId, a: string, s: string)
    requires k !in w.calls
    ensures SameRows(w, DoRefill(w, k, a, s), k) && (k in DoRefill(w, k, a, s).calls ==> DoRefill(w, k, a, s).calls[k].Mirroring?)
    ensures SameWindows(w, DoRefill(w, k, a, s))
  {
    hide OnlyCall;
    CallMoves(w.calls, k, Mirroring(a, [s], [], None, None));
  }

  lemma ResolveRows(w: World, k: CallId, s: string)
    ensures k !in w.calls ==> SameRows(w, DoLookUp(w, k, s), k) && (k in DoLookUp(w, k, s).calls ==> !DoLookUp(w, k, s).calls[k].Loaded?)
    ensures SameRows(w, DoRehydrate(w, k), k) && (k in DoRehydrate(w, k).calls ==> k in w.calls && w.calls[k] == DoRehydrate(w, k).calls[k])
  {
    hide OnlyCall;
    CallMoves(w.calls, k, Found(s, if s in w.bindings then w.bindings[s] else ""));
  }

  lemma OtherRows(w: World, s: Step)
    requires !s.Create? && !s.Load? && !s.Commit?
    ensures SameRows(w, Do(w, s), s.k) && (s.k in Do(w, s).calls && Do(w, s).calls[s.k].Loaded? ==> s.k in w.calls && w.calls[s.k] == Do(w, s).calls[s.k])
  {
    hide DoMirror, DoAbandon, DoRestart, DoBegin, DoRefill, DoLookUp, DoRehydrate, OnlyCall;
    CallMoves(w.calls, s.k, Found("", ""));
    match s
    case Mirror(k, ok) => MirrorRows(w, k, ok);
    case Abandon(k) => AbandonRows(w, k);
    case Restart(k) => RestartRows(w, k);
    case Begin(k, a, op) => if k !in w.calls { BeginRows(w, k, a, op); }
    case Refill(k, a, session) => if k !in w.calls { RefillRows(w, k, a, session); }
    case LookUp(k, session) => ResolveRows(w, k, session);
    case Rehydrate(k) => ResolveRows(w, k, "");
    case Forget(_, _) =>
  }

  lemma NoLoad(w: World, k: CallId, now: int)
    requires !(k in w.calls && w.calls[k].Ready?)
    ensures DoLoad(w, k, now) == w
  {
  }

  lemma NoCommit(w: World, k: CallId)
    requires !(k in w.calls && w.calls[k].Loaded?)
    ensures DoCommit(w, k) == w
  {
  }

  lemma {:induction false} RunRows(w: World, steps: seq<Step>)
    requires RowsOk(w)
    ensures RowsOk(Run(w, steps))
    decreases |steps|
  {
    hide RowsOk, Do;
    if steps != [] {
      StepRows(w, steps[0]);
      RunRows(Do(w, steps[0]), steps[1..]);
    }
  }

  /** No write to an agent row is ever lost: in every reachable world the row is what its committed writes make
      of the row as created, each applied to exactly what the one before it left.  So the epoch is the
      number of claims committed, the current session is the last claimant's, the thrash count is the number of
      marks since the last reset, and the list is in the order its sessions last registered in. */
  lemma NoLostUpdates(steps: seq<Step>, a: string)
    requires a in Reached(steps).agents
    ensures var w := Reached(steps);
            && a in w.past.hist && a in w.past.first && var h, row := w.past.hist[a], w.agents[a].row;
            && Unclaimed(w.past.first[a]) && TidyList(w.past.first[a].registered) && Linear(w.past.first[a], h, row)
            && row.epoch == Claims(h) && row.thrashCount == Thrashes(h) && row.current == LastClaimant(h)
            && TidyList(row.registered) && |w.past.first[a].registered| <= 1
            && forall x, y | Ahead(row.registered, x, y) :: LastEnlisted(h, x) < LastEnlisted(h, y)
  {
    var w := Reached(steps);
    RunRows(Init(), steps);
    assert RowOk(w, a);
    CountersMatchHistory(w.past.first[a], w.past.hist[a], w.agents[a].row);
    RegisteredStaysTidy(w.past.first[a], w.past.hist[a], w.agents[a].row);
    ListIsInOrder(w.past.first[a], w.past.hist[a], w.agents[a].row);
  }
}
