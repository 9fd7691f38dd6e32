/** The agent row: what each writer of it does, and what a linear history of such writes amounts to. */
module Agents {
  import opened Substrate
  import opened Histories

  datatype Liveness = Online | Degraded | Unresponsive | Offline

  datatype Activity = Away | Idle | Working | QuotaBlocked | Paused

  datatype Agent = Agent(
    archived: bool, epoch: nat, current: Option<string>, registered: seq<string>,
    online: bool, liveness: Liveness, lastSeenAt: int, lastHeartbeatAt: int,
    activity: Activity, startedAt: Option<int>, lastToolCallAt: Option<int>, lastTool: Option<string>,
    idleSince: Option<int>, workingSince: Option<int>, blockedUntil: Option<int>,
    restarts: seq<int>, restartCount: nat, thrashCount: nat)

  datatype Op =
    | Assert(binding: Option<string>, at: int)
    | Claim(session: string)
    | Touch(session: string)
    | Heartbeat
    | SetLiveness(state: Liveness)
    | SetActivity(activity: Activity)
    | ToolStart(tool: string)
    | ToolComplete
    | BlockQuota(retryAfterSeconds: int)
    | RecoverQuota
    | ThrashUp
    | ThrashReset
    | MarkOffline(session: string)
    | Archive

  const SESSION_CAP := 8
  const RESTART_CAP := 50
  const DAY_MS: int := 24 * 60 * 60 * 1000

  /** A falsy session id stands for none. */
  predicate Names(s: Option<string>) {
    s.Some? && s.value != ""
  }

  function Without(list: seq<string>, s: string): seq<string> {
    if list == [] then [] else if list[0] == s then Without(list[1..], s) else [list[0]] + Without(list[1..], s)
  }

  /** The newest entries of a list, at most `cap` of them. */
  function Newest<T>(list: seq<T>, cap: nat): seq<T> {
    if |list| > cap then list[|list| - cap..] else list
  }

  /** `appendRegisteredSession`: duplicate-free, newest last, the oldest shifted off beyond the cap. */
  function Append(list: seq<string>, s: string): seq<string> {
    Newest(Without(list, s) + [s], SESSION_CAP)
  }

  /** Reading a row clamps the activity of an agent that is not online. */
  function Normalize(a: Agent): Agent {
    if a.liveness == Online then a else a.(activity := Away)
  }

  /** Whom a claim by session `s` displaces, and in which epoch that session held the agent. */
  function Displaced(a: Agent, s: string): Option<(string, nat)> {
    if Names(a.current) && a.current.value != s then Some((a.current.value, a.epoch)) else None
  }

  function Recent(times: seq<int>, now: int): nat {
    if times == [] then 0 else Recent(times[..|times| - 1], now) + if now - times[|times| - 1] <= DAY_MS then 1 else 0
  }

  /** The writer goes ahead: some only write when the row is still theirs to write, or needs it. */
  predicate Applies(a: Agent, op: Op) {
    match op
    case Touch(s) => a.current == Some(s)
    case MarkOffline(s) => a.current == Some(s)
    case ThrashReset => a.thrashCount != 0
    case Archive => !a.archived
    case _ => true
  }

  function Revoked(a: Agent, s: string): seq<string> {
    var d := Displaced(a, s);
    if d.Some? then Without(a.registered, d.value.0) else a.registered
  }

  function ClaimedBy(a: Agent, s: string, now: int): Agent {
    var restarts := Newest(a.restarts + [now], RESTART_CAP);
    a.(epoch := a.epoch + 1, current := Some(s), registered := Append(Revoked(a, s), s), online := true, liveness := Online,
       lastHeartbeatAt := now, activity := Idle, startedAt := Some(now), idleSince := Some(now), workingSince := None,
       restarts := restarts, restartCount := Recent(restarts, now))
  }

  function Apply(row: Agent, op: Op, now: int): Agent {
    var a := Normalize(row);
    match op
    case Assert(s, at) => a.(archived := false, registered := if Names(s) then Append(a.registered, s.value) else a.registered, lastHeartbeatAt := at)
    case Claim(s) => ClaimedBy(a, s, now)
    case Touch(_) => a.(lastSeenAt := now, online := true)
    case Heartbeat => a.(lastHeartbeatAt := now, liveness := Online)
    case SetLiveness(l) => a.(liveness := l)
    case SetActivity(x) => a.(activity := x)
    case ToolStart(tool) => a.(activity := Working, lastToolCallAt := Some(now), lastTool := Some(tool), workingSince := Some(now), idleSince := None)
    case ToolComplete => a.(activity := Idle, idleSince := Some(now), workingSince := None)
    case BlockQuota(secs) => a.(activity := QuotaBlocked, blockedUntil := Some(now + secs * 1000), workingSince := None)
    case RecoverQuota => a.(activity := Idle, idleSince := Some(now), blockedUntil := None)
    case ThrashUp => a.(thrashCount := a.thrashCount + 1)
    case ThrashReset => a.(thrashCount := 0)
    case MarkOffline(_) => a.(online := false, liveness := Offline, lastSeenAt := now)
    case Archive => a.(archived := true)
  }

  /** First contact. */
  function Newborn(session: Option<string>, now: int): Agent {
    Agent(false, 0, None, if Names(session) then [session.value] else [], false, Offline, now, now, Away, None, None, None, None, None, None, [], 0, 0)
  }

  /* ------------------------------------------------------------------ linear histories */

  /** One committed write: the row it replaced and the row it left. */
  datatype Event = Event(op: Op, now: int, before: Agent, after: Agent)

  /** Every write was applied to the row the write before it left, and the row is what the last one left:
      none was lost, none acted on a stale copy. */
  ghost predicate Linear(first: Agent, h: seq<Event>, row: Agent)
    decreases |h|
  {
    if h == [] then row == first
    else
      var e := h[|h| - 1];
      Applies(e.before, e.op) && row == e.after == Apply(e.before, e.op, e.now) && Linear(first, h[..|h| - 1], e.before)
  }

  lemma LinearExtends(first: Agent, h: seq<Event>, row: Agent, op: Op, now: int)
    requires Linear(first, h, row) && Applies(row, op)
    ensures Linear(first, h + [Event(op, now, row, Apply(row, op, now))], Apply(row, op, now))
  {
    assert (h + [Event(op, now, row, Apply(row, op, now))])[..|h|] == h;
  }

  /** Every moment of a linear history is one: the row then is what the last write up to then left, and what the
      next write found. */
  lemma {:induction false} LinearPrefix(first: Agent, h: seq<Event>, row: Agent, n: nat)
    requires Linear(first, h, row) && n <= |h|
    ensures Linear(first, h[..n], if n == |h| then row else h[n].before)
    ensures n < |h| ==> Applies(h[n].before, h[n].op) && h[n].after == Apply(h[n].before, h[n].op, h[n].now)
    decreases |h|
  {
    if n == |h| {
      assert h[..n] == h;
    } else {
      hide Apply, Applies;
      var front := h[..|h| - 1];
      LinearPrefix(first, front, h[|h| - 1].before, n);
      assert front[..n] == h[..n];
    }
  }

  /** What the claims' lemmas need of a first row; every newborn has it. */
  predicate Unclaimed(a: Agent) {
    a.epoch == 0 && a.thrashCount == 0 && a.current == None && a.restarts == []
  }

  function Claims(h: seq<Event>): nat {
    if h == [] then 0 else Claims(h[..|h| - 1]) + if h[|h| - 1].op.Claim? then 1 else 0
  }

  /** Thrash marks since the last reset. */
  function Thrashes(h: seq<Event>): nat {
    if h == [] then 0
    else match h[|h| - 1].op
      case ThrashUp => Thrashes(h[..|h| - 1]) + 1
      case ThrashReset => 0
      case _ => Thrashes(h[..|h| - 1])
  }

  function ClaimTimes(h: seq<Event>): seq<int> {
    if h == [] then []
    else if h[|h| - 1].op.Claim? then ClaimTimes(h[..|h| - 1]) + [h[|h| - 1].now]
    else ClaimTimes(h[..|h| - 1])
  }

  /** The session of the last claim, if there was one. */
  function LastClaimant(h: seq<Event>): Option<string> {
    if h == [] then None else if h[|h| - 1].op.Claim? then Some(h[|h| - 1].op.session) else LastClaimant(h[..|h| - 1])
  }

  /** What a write does to the counters. */
  lemma ApplyCounts(a: Agent, op: Op, now: int)
    ensures var b := Apply(a, op, now);
            && b.epoch == a.epoch + (if op.Claim? then 1 else 0)
            && b.current == (if op.Claim? then Some(op.session) else a.current)
            && b.thrashCount == (if op.ThrashUp? then a.thrashCount + 1 else if op.ThrashReset? then 0 else a.thrashCount)
            && b.restarts == (if op.Claim? then Newest(a.restarts + [now], RESTART_CAP) else a.restarts)
            && (op.Claim? ==> b.restartCount == Recent(b.restarts, now))
  {
  }

  /** The counters are exactly what the history says: the epoch counts the claims, the thrash count the
      marks since the last reset, and the current session is the last claimant. */
  lemma {:induction false} CountersMatchHistory(first: Agent, h: seq<Event>, row: Agent)
    requires Linear(first, h, row) && Unclaimed(first)
    ensures row.epoch == Claims(h) && row.thrashCount == Thrashes(h) && row.current == LastClaimant(h)
    ensures row.restarts == Newest(ClaimTimes(h), RESTART_CAP)
    decreases |h|
  {
    if h != [] {
      hide Apply, Newest;
      var e := h[|h| - 1];
      CountersMatchHistory(first, h[..|h| - 1], e.before);
      ApplyCounts(e.before, e.op, e.now);
      NewestOfNewest(ClaimTimes(h[..|h| - 1]), RESTART_CAP, e.now);
    }
  }

  lemma NewestOfNewest(list: seq<int>, cap: nat, x: int)
    requires cap > 0
    ensures Newest(Newest(list, cap) + [x], cap) == Newest(list + [x], cap)
  {
  }

  /* ------------------------------------------------------------------ what the writes said */

  function SaysArchived(e: Event): Option<bool> {
    match e.op
    case Assert(_, _) => Some(false)
    case Archive => Some(true)
    case _ => None
  }

  function SaysOnline(e: Event): Option<bool> {
    match e.op
    case Claim(_) => Some(true)
    case Touch(_) => Some(true)
    case MarkOffline(_) => Some(false)
    case _ => None
  }

  function SaysLiveness(e: Event): Option<Liveness> {
    match e.op
    case Claim(_) => Some(Online)
    case Heartbeat => Some(Online)
    case SetLiveness(l) => Some(l)
    case MarkOffline(_) => Some(Offline)
    case _ => None
  }

  function SaysSeen(e: Event): Option<int> {
    if e.op.Touch? || e.op.MarkOffline? then Some(e.now) else None
  }

  function SaysHeartbeat(e: Event): Option<int> {
    match e.op
    case Assert(_, at) => Some(at)
    case Claim(_) => Some(e.now)
    case Heartbeat => Some(e.now)
    case _ => None
  }

  function SaysStarted(e: Event): Option<int> {
    if e.op.Claim? then Some(e.now) else None
  }

  function SaysTool(e: Event): Option<string> {
    if e.op.ToolStart? then Some(e.op.tool) else None
  }

  function SaysToolCall(e: Event): Option<int> {
    if e.op.ToolStart? then Some(e.now) else None
  }

  /** An event can also say that there is no such time any more. */
  function SaysIdle(e: Event): Option<Option<int>> {
    if e.op.Claim? || e.op.ToolComplete? || e.op.RecoverQuota? then Some(Some(e.now)) else if e.op.ToolStart? then Some(None) else None
  }

  function SaysWorking(e: Event): Option<Option<int>> {
    if e.op.ToolStart? then Some(Some(e.now)) else if e.op.Claim? || e.op.ToolComplete? || e.op.BlockQuota? then Some(None) else None
  }

  function SaysBlocked(e: Event): Option<Option<int>> {
    match e.op
    case BlockQuota(secs) => Some(Some(e.now + secs * 1000))
    case RecoverQuota => Some(None)
    case _ => None
  }

  /** A write that says nothing of activity still finds it lapsed on a row that is not online. */
  function SaysActivity(e: Event): Option<Activity> {
    match e.op
    case Claim(_) => Some(Idle)
    case SetActivity(x) => Some(x)
    case ToolStart(_) => Some(Working)
    case ToolComplete => Some(Idle)
    case BlockQuota(_) => Some(QuotaBlocked)
    case RecoverQuota => Some(Idle)
    case _ => if e.before.liveness == Online then None else Some(Away)
  }

  /** Whether, and how well, the agent is there. */
  ghost predicate PresenceTold(first: Agent, h: seq<Event>, row: Agent) {
    && row.archived == Default(Latest(h, SaysArchived), first.archived)
    && row.online == Default(Latest(h, SaysOnline), first.online)
    && row.liveness == Default(Latest(h, SaysLiveness), first.liveness)
    && row.lastSeenAt == Default(Latest(h, SaysSeen), first.lastSeenAt)
    && row.lastHeartbeatAt == Default(Latest(h, SaysHeartbeat), first.lastHeartbeatAt)
    && row.startedAt == OrElse(Latest(h, SaysStarted), first.startedAt)
  }

  /** What it is doing. */
  ghost predicate ActivityTold(first: Agent, h: seq<Event>, row: Agent) {
    && row.activity == Default(Latest(h, SaysActivity), first.activity)
    && row.lastTool == OrElse(Latest(h, SaysTool), first.lastTool)
    && row.lastToolCallAt == OrElse(Latest(h, SaysToolCall), first.lastToolCallAt)
    && row.idleSince == Default(Latest(h, SaysIdle), first.idleSince)
    && row.workingSince == Default(Latest(h, SaysWorking), first.workingSince)
    && row.blockedUntil == Default(Latest(h, SaysBlocked), first.blockedUntil)
  }

  lemma PresenceSaid(a: Agent, op: Op, now: int, b: Agent)
    ensures Apply(a, op, now).archived == Default(SaysArchived(Event(op, now, a, b)), a.archived)
    ensures Apply(a, op, now).online == Default(SaysOnline(Event(op, now, a, b)), a.online)
    ensures Apply(a, op, now).liveness == Default(SaysLiveness(Event(op, now, a, b)), a.liveness)
    ensures Apply(a, op, now).lastSeenAt == Default(SaysSeen(Event(op, now, a, b)), a.lastSeenAt)
    ensures Apply(a, op, now).lastHeartbeatAt == Default(SaysHeartbeat(Event(op, now, a, b)), a.lastHeartbeatAt)
    ensures Apply(a, op, now).startedAt == OrElse(SaysStarted(Event(op, now, a, b)), a.startedAt)
  {
    hide Append, Revoked, Recent, Newest;
  }

  lemma ActivitySaid(a: Agent, op: Op, now: int, b: Agent)
    ensures Apply(a, op, now).activity == Default(SaysActivity(Event(op, now, a, b)), a.activity)
  {
    hide Append, Revoked, Recent, Newest;
  }

  lemma ToolSaid(a: Agent, op: Op, now: int, b: Agent)
    ensures Apply(a, op, now).lastTool == OrElse(SaysTool(Event(op, now, a, b)), a.lastTool)
    ensures Apply(a, op, now).lastToolCallAt == OrElse(SaysToolCall(Event(op, now, a, b)), a.lastToolCallAt)
  {
    hide Append, Revoked, Recent, Newest;
  }

  lemma ActivityTimesSaid(a: Agent, op: Op, now: int, b: Agent)
    ensures Apply(a, op, now).idleSince == Default(SaysIdle(Event(op, now, a, b)), a.idleSince)
    ensures Apply(a, op, now).workingSince == Default(SaysWorking(Event(op, now, a, b)), a.workingSince)
    ensures Apply(a, op, now).blockedUntil == Default(SaysBlocked(Event(op, now, a, b)), a.blockedUntil)
  {
    hide Append, Revoked, Recent, Newest;
  }

  lemma PresenceNext(first: Agent, h: seq<Event>, e: Event)
    requires h != [] && h[|h| - 1] == e && e.after == Apply(e.before, e.op, e.now) && PresenceTold(first, h[..|h| - 1], e.before)
    ensures PresenceTold(first, h, e.after)
  {
    hide Apply, SaysArchived, SaysOnline, SaysLiveness, SaysSeen, SaysHeartbeat, SaysStarted;
    PresenceSaid(e.before, e.op, e.now, e.after);
  }

  lemma ActivityNext(first: Agent, h: seq<Event>, e: Event)
    requires h != [] && h[|h| - 1] == e && e.after == Apply(e.before, e.op, e.now) && ActivityTold(first, h[..|h| - 1], e.before)
    ensures ActivityTold(first, h, e.after)
  {
    hide Apply, SaysActivity, SaysTool, SaysToolCall, SaysIdle, SaysWorking, SaysBlocked;
    ActivitySaid(e.before, e.op, e.now, e.after);
    ToolSaid(e.before, e.op, e.now, e.after);
    ActivityTimesSaid(e.before, e.op, e.now, e.after);
  }

  /** Every field but the counters and the list is what the last write that speaks of it said, so no write
      of one field disturbs another. */
  lemma {:induction false} FieldsMatchHistory(first: Agent, h: seq<Event>, row: Agent)
    requires Linear(first, h, row)
    ensures PresenceTold(first, h, row) && ActivityTold(first, h, row)
    decreases |h|
  {
    if h != [] {
      hide Apply, PresenceTold, ActivityTold;
      FieldsMatchHistory(first, h[..|h| - 1], h[|h| - 1].before);
      PresenceNext(first, h, h[|h| - 1]);
      ActivityNext(first, h, h[|h| - 1]);
    }
  }

  /** What a claim reports as displaced is the claim before it: that session, unless it is claiming again, and
      the epoch that claim began. */
  lemma ClaimReportsThePrevious(first: Agent, h: seq<Event>, row: Agent, i: nat)
    requires Linear(first, h, row) && Unclaimed(first)
    requires i < |h| && h[i].op.Claim?
    ensures Displaced(h[i].before, h[i].op.session)
            == var last := LastClaimant(h[..i]); if Names(last) && last.value != h[i].op.session then Some((last.value, Claims(h[..i]))) else None
    ensures h[i].after.epoch == Claims(h[..i]) + 1
  {
    hide Apply;
    LinearPrefix(first, h, row, i);
    CountersMatchHistory(first, h[..i], h[i].before);
    ApplyCounts(h[i].before, h[i].op, h[i].now);
  }

  /* ------------------------------------------------------------------ restarts in the last day */

  predicate Ascending(times: seq<int>) {
    forall i, j | 0 <= i < j < |times| :: times[i] <= times[j]
  }

  lemma {:induction false} RecentIsSuffix(times: seq<int>, now: int, n: nat)
    requires Ascending(times) && n <= |times| && Recent(times, now) <= |times| - n
    ensures Recent(times[n..], now) == Recent(times, now)
    decreases |times|
  {
    if times != [] && n < |times| {
      var front := times[..|times| - 1];
      assert times[n..][..|times| - n - 1] == front[n..];
      if now - times[|times| - 1] <= DAY_MS {
        RecentIsSuffix(front, now, n);
      } else {
        NoneRecent(times, now);
        NoneRecent(times[n..], now);
      }
    } else if times != [] {
      assert times[n..] == [];
    }
  }

  lemma {:induction false} NoneRecent(times: seq<int>, now: int)
    requires Ascending(times) && times != [] && now - times[|times| - 1] > DAY_MS
    ensures Recent(times, now) == 0
    decreases |times|
  {
    if |times| > 1 { NoneRecent(times[..|times| - 1], now); }
  }

  lemma {:induction false} RecentIsAll(times: seq<int>, now: int, n: nat)
    requires Ascending(times) && n <= |times| && Recent(times, now) >= |times| - n
    ensures Recent(times[n..], now) == |times| - n
    decreases |times|
  {
    if n < |times| {
      var front := times[..|times| - 1];
      assert times[n..][..|times| - n - 1] == front[n..];
      if now - times[|times| - 1] <= DAY_MS {
        RecentIsAll(front, now, n);
      } else {
        NoneRecent(times, now);
      }
    } else {
      assert times[n..] == [];
    }
  }

  lemma {:induction false} RecentIsBounded(times: seq<int>, now: int)
    ensures Recent(times, now) <= |times|
    decreases |times|
  {
    if times != [] { RecentIsBounded(times[..|times| - 1], now); }
  }

  /** Counting among the newest entries only loses nothing up to the cap. */
  lemma RecentOfNewest(times: seq<int>, now: int, cap: nat)
    requires Ascending(times)
    ensures Recent(Newest(times, cap), now) == var n := Recent(times, now); if n < cap then n else cap
  {
    hide Recent;
    RecentIsBounded(times, now);
    if |times| > cap {
      if Recent(times, now) <= cap { RecentIsSuffix(times, now, |times| - cap); } else { RecentIsAll(times, now, |times| - cap); }
    }
  }

  /** At every claim, `restartCount` is the number of claims in the last day, or 50 if there were more, although
      the row keeps the times of the last 50 only; provided the claims' clock readings do not go backwards. */
  lemma OrderedRestartCount(first: Agent, h: seq<Event>, row: Agent)
    requires Linear(first, h, row) && Unclaimed(first)
    requires h != [] && h[|h| - 1].op.Claim? && Ascending(ClaimTimes(h))
    ensures var n := Recent(ClaimTimes(h), h[|h| - 1].now); row.restartCount == if n < RESTART_CAP then n else RESTART_CAP
  {
    hide Apply, Recent, Newest;
    CountersMatchHistory(first, h, row);
    ApplyCounts(h[|h| - 1].before, h[|h| - 1].op, h[|h| - 1].now);
    RecentOfNewest(ClaimTimes(h), h[|h| - 1].now, RESTART_CAP);
  }

  /* ------------------------------------------------------------------ the registered sessions */

  predicate NoDuplicates(list: seq<string>) {
    forall i, j | 0 <= i < j < |list| :: list[i] != list[j]
  }

  lemma JoinedDistinct(a: seq<string>, b: seq<string>)
    requires NoDuplicates(a) && NoDuplicates(b) && forall x | x in a :: x !in b
    ensures NoDuplicates(a + b)
  {
    forall i, j | 0 <= i < j < |a + b| ensures (a + b)[i] != (a + b)[j] {
      if i < |a| <= j { assert a[i] in a && b[j - |a|] in b; }
    }
  }

  lemma {:induction false} WithoutKeeps(list: seq<string>, s: string)
    ensures forall x :: x in Without(list, s) <==> x in list && x != s
    ensures |Without(list, s)| <= |list|
    ensures NoDuplicates(list) ==> NoDuplicates(Without(list, s))
  {
    if list != [] {
      WithoutKeeps(list[1..], s);
      assert list == [list[0]] + list[1..];
      if NoDuplicates(list) {
        assert list[0] !in list[1..];
        JoinedDistinct([list[0]], Without(list[1..], s));
      }
    }
  }

  /** `x` stands ahead of `y` in the list. */
  ghost predicate Ahead(list: seq<string>, x: string, y: string) {
    exists i, j :: 0 <= i < j < |list| && list[i] == x && list[j] == y
  }

  /** The list as an append leaves it: duplicate-free, at most eight long, the new session last, all others there but, when eight
      others were there, the first of them; and those left in the order they stood in. */
  ghost predicate Appended(next: seq<string>, list: seq<string>, s: string) {
    && NoDuplicates(next) && 0 < |next| <= 8 && next[|next| - 1] == s
    && (forall x :: x in next <==> x == s || (x in list && !(s !in list && |list| == 8 && x == list[0])))
    && (forall x, y | x in next && y in next && x != s && y != s :: Ahead(next, x, y) <==> Ahead(list, x, y))
  }

  lemma {:induction false} WithoutOrders(list: seq<string>, s: string)
    ensures forall i, j | 0 <= i < j < |Without(list, s)| :: Ahead(list, Without(list, s)[i], Without(list, s)[j])
    ensures s !in list ==> Without(list, s) == list
  {
    if list != [] {
      WithoutOrders(list[1..], s);
      var rest := Without(list[1..], s);
      assert list == [list[0]] + list[1..];
      forall x, y | Ahead(list[1..], x, y) ensures Ahead(list, x, y) {
        var i, j :| 0 <= i < j < |list[1..]| && list[1..][i] == x && list[1..][j] == y;
        assert list[i + 1] == x && list[j + 1] == y;
      }
      WithoutKeeps(list[1..], s);
      forall j | 0 <= j < |rest| ensures Ahead(list, list[0], rest[j]) {
        assert rest[j] in list[1..];
        var m :| 0 <= m < |list[1..]| && list[1..][m] == rest[j];
        assert list[0] == list[0] && list[m + 1] == rest[j];
      }
    }
  }

  /** In a list without duplicates exactly one of two entries stands ahead of the other. */
  lemma AheadOneWay(list: seq<string>, x: string, y: string)
    requires NoDuplicates(list) && x in list && y in list && x != y
    ensures Ahead(list, x, y) <==> !Ahead(list, y, x)
  {
    var i :| 0 <= i < |list| && list[i] == x;
    var j :| 0 <= j < |list| && list[j] == y;
    if i < j { assert list[i] == x && list[j] == y; } else { assert list[j] == y && list[i] == x; }
  }

  /** An append leaves what it should. */
  lemma AppendKeeps(list: seq<string>, s: string)
    requires NoDuplicates(list) && |list| <= 8
    ensures Appended(Append(list, s), list, s)
  {
    hide Ahead;
    WithoutKeeps(list, s);
    WithoutOrders(list, s);
    var rest := Without(list, s);
    var next := Append(list, s);
    JoinedDistinct(rest, [s]);
    if |rest| == 8 {
      EightOthers(list, s);
      assert next == (rest + [s])[1..] == rest[1..] + [s];
      assert rest == [rest[0]] + rest[1..];
    } else {
      FewerOthers(list, s);
      assert next == rest + [s];
    }
    forall x, y | x in next && y in next && x != s && y != s ensures Ahead(next, x, y) <==> Ahead(list, x, y) {
      if x != y { OrderKept(list, next, s, x, y); } else { NotAheadOfItself(list, x); NotAheadOfItself(next, x); }
    }
  }

  lemma EightOthers(list: seq<string>, s: string)
    requires NoDuplicates(list) && |list| <= 8 && |Without(list, s)| == 8
    ensures s !in list && Without(list, s) == list
  {
    if s in list { ShorterWithout(list, s); }
    WithoutOrders(list, s);
  }

  lemma FewerOthers(list: seq<string>, s: string)
    requires NoDuplicates(list) && |list| <= 8 && |Without(list, s)| != 8
    ensures |Without(list, s)| < 8 && !(s !in list && |list| == 8)
  {
    WithoutKeeps(list, s);
    WithoutOrders(list, s);
  }

  lemma {:induction false} ShorterWithout(list: seq<string>, s: string)
    requires s in list
    ensures |Without(list, s)| < |list|
  {
    WithoutKeeps(list[1..], s);
    if list[0] != s { ShorterWithout(list[1..], s); }
  }

  lemma NotAheadOfItself(list: seq<string>, x: string)
    requires NoDuplicates(list)
    ensures !Ahead(list, x, x)
  {
  }

  lemma OrderKept(list: seq<string>, next: seq<string>, s: string, x: string, y: string)
    requires NoDuplicates(list) && NoDuplicates(next) && x != y && x in next && y in next && x in list && y in list && x != s && y != s
    requires var rest := Without(list, s); NoDuplicates(rest) && (next == rest + [s] || (rest != [] && next == rest[1..] + [s]))
    ensures Ahead(next, x, y) <==> Ahead(list, x, y)
  {
    WithoutOrders(list, s);
    AheadOneWay(list, x, y);
    AheadOneWay(next, x, y);
    AheadThen(list, next, s, x, y);
    AheadThen(list, next, s, y, x);
  }

  lemma AheadThen(list: seq<string>, next: seq<string>, s: string, x: string, y: string)
    requires x != s && y != s && var rest := Without(list, s); next == rest + [s] || (rest != [] && next == rest[1..] + [s])
    requires forall i, j | 0 <= i < j < |Without(list, s)| :: Ahead(list, Without(list, s)[i], Without(list, s)[j])
    ensures Ahead(next, x, y) ==> Ahead(list, x, y)
  {
    var rest := Without(list, s);
    if Ahead(next, x, y) {
      var i, j :| 0 <= i < j < |next| && next[i] == x && next[j] == y;
      if next == rest + [s] { assert rest[i] == x && rest[j] == y; } else { assert rest[i + 1] == x && rest[j + 1] == y; }
    }
  }

  lemma ApplyRegisters(a: Agent, op: Op, now: int)
    ensures Apply(a, op, now).registered
            == match op
               case Assert(s, _) => if Names(s) then Append(a.registered, s.value) else a.registered
               case Claim(s) => Append(Revoked(a, s), s)
               case _ => a.registered
  {
  }

  predicate TidyList(list: seq<string>) {
    NoDuplicates(list) && |list| <= SESSION_CAP
  }

  lemma ApplyTidy(a: Agent, op: Op, now: int)
    requires TidyList(a.registered)
    ensures TidyList(Apply(a, op, now).registered)
  {
    hide Apply, Append, Without;
    ApplyRegisters(a, op, now);
    if op.Assert? && Names(op.binding) { AppendKeeps(a.registered, op.binding.value); }
    if op.Claim? {
      RevokedTidy(a, op.session);
      AppendKeeps(Revoked(a, op.session), op.session);
    }
  }

  lemma RevokedTidy(a: Agent, s: string)
    requires TidyList(a.registered)
    ensures TidyList(Revoked(a, s)) && var d := Displaced(a, s); forall x :: x in Revoked(a, s) <==> x in a.registered && !(d.Some? && d.value.0 == x)
  {
    var d := Displaced(a, s);
    if d.Some? { WithoutKeeps(a.registered, d.value.0); }
  }

  /** In every state of every history the list has no duplicates and at most eight entries. */
  lemma {:induction false} RegisteredStaysTidy(first: Agent, h: seq<Event>, row: Agent)
    requires Linear(first, h, row) && TidyList(first.registered)
    ensures TidyList(row.registered)
    decreases |h|
  {
    hide Apply, TidyList;
    if h != [] {
      RegisteredStaysTidy(first, h[..|h| - 1], h[|h| - 1].before);
      ApplyTidy(h[|h| - 1].before, h[|h| - 1].op, h[|h| - 1].now);
    }
  }

  /** A write that puts session `s` on the list. */
  predicate Enlists(op: Op, s: string) {
    match op
    case Claim(session) => session == s
    case Assert(binding, _) => binding == Some(s) && s != ""
    case _ => false
  }

  /** The session a claim by another takes off the list. */
  predicate TakesOff(a: Agent, op: Op, x: string) {
    op.Claim? && a.current == Some(x) && x != "" && x != op.session
  }

  /** The write evicts an entry: it enlists a session that is not on the list, eight others are, and it takes none of them off. */
  ghost predicate Evicts(a: Agent, op: Op) {
    |a.registered| == 8 && (forall x | x in a.registered :: !Enlists(op, x) && !TakesOff(a, op, x)) && exists s :: Enlists(op, s)
  }

  /** What a write makes of the list: who is on it, and in which order. */
  lemma ListAfter(a: Agent, op: Op, now: int)
    requires TidyList(a.registered)
    ensures var after := Apply(a, op, now).registered;
            && (forall x :: x in after <==> Enlists(op, x) || (x in a.registered && !TakesOff(a, op, x) && !(Evicts(a, op) && x == a.registered[0])))
            && (forall x, y | x in after && y in after && !Enlists(op, x) && !Enlists(op, y) :: Ahead(after, x, y) <==> Ahead(a.registered, x, y))
            && (forall x | Enlists(op, x) :: after != [] && after[|after| - 1] == x)
  {
    hide Apply, Append, Ahead;
    ApplyRegisters(a, op, now);
    if op.Claim? { ClaimedList(a, op, op.session, now); }
    else if op.Assert? && Names(op.binding) {
      AppendKeeps(a.registered, op.binding.value);
      assert Enlists(op, op.binding.value);
    }
  }

  lemma ClaimedList(a: Agent, op: Op, s: string, now: int)
    requires TidyList(a.registered) && op == Claim(s)
    ensures var after := Append(Revoked(a, s), s);
            && (forall x :: x in after <==> Enlists(op, x) || (x in a.registered && !TakesOff(a, op, x) && !(Evicts(a, op) && x == a.registered[0])))
            && (forall x, y | x in after && y in after && x != s && y != s :: Ahead(after, x, y) <==> Ahead(a.registered, x, y))
            && after != [] && after[|after| - 1] == s
  {
    hide Append, Ahead;
    RevokedTidy(a, s);
    AppendKeeps(Revoked(a, s), s);
    assert Enlists(op, s);
    var d := Displaced(a, s);
    if d.Some? {
      WithoutOrders(a.registered, d.value.0);
      if d.value.0 in a.registered {
        ShorterWithout(a.registered, d.value.0);
        assert TakesOff(a, op, d.value.0);
      }
      RevokedOrder(a, s);
    }
  }

  lemma RevokedOrder(a: Agent, s: string)
    requires TidyList(a.registered) && Displaced(a, s).Some?
    ensures forall x, y | x in Revoked(a, s) && y in Revoked(a, s) :: Ahead(Revoked(a, s), x, y) <==> Ahead(a.registered, x, y)
  {
    hide Ahead;
    var d := Displaced(a, s).value.0;
    var rest := Without(a.registered, d);
    WithoutKeeps(a.registered, d);
    WithoutOrders(a.registered, d);
    forall x, y | x in rest && y in rest ensures Ahead(rest, x, y) <==> Ahead(a.registered, x, y) {
      if x != y { AheadOneWay(rest, x, y); AheadOneWay(a.registered, x, y); RestAhead(a.registered, d, x, y); RestAhead(a.registered, d, y, x); }
      else { NotAheadOfItself(rest, x); NotAheadOfItself(a.registered, x); }
    }
  }

  lemma RestAhead(list: seq<string>, s: string, x: string, y: string)
    requires forall i, j | 0 <= i < j < |Without(list, s)| :: Ahead(list, Without(list, s)[i], Without(list, s)[j])
    ensures Ahead(Without(list, s), x, y) ==> Ahead(list, x, y)
  {
  }

  /** The last write of a history that put the session on the list, or -1. */
  function LastEnlisted(h: seq<Event>, s: string): int {
    if h == [] then -1 else if Enlists(h[|h| - 1].op, s) then |h| - 1 else LastEnlisted(h[..|h| - 1], s)
  }

  lemma {:induction false} LastEnlistedIs(h: seq<Event>, s: string)
    ensures -1 <= LastEnlisted(h, s) < |h|
    decreases |h|
  {
    if h != [] { LastEnlistedIs(h[..|h| - 1], s); }
  }

  /** In every state of every history the list is in the order in which its sessions were last put on it. */
  lemma {:induction false} ListIsInOrder(first: Agent, h: seq<Event>, row: Agent)
    requires Linear(first, h, row) && TidyList(first.registered) && |first.registered| <= 1
    ensures forall x, y | Ahead(row.registered, x, y) :: LastEnlisted(h, x) < LastEnlisted(h, y)
    decreases |h|
  {
    hide Apply, Ahead, Evicts;
    if h == [] {
      ShortListHasNoOrder(first.registered);
    } else {
      var n := |h| - 1;
      var e, front := h[n], h[..n];
      ListIsInOrder(first, front, e.before);
      RegisteredStaysTidy(first, front, e.before);
      RegisteredStaysTidy(first, h, row);
      ListAfter(e.before, e.op, e.now);
      forall x, y | Ahead(row.registered, x, y) ensures LastEnlisted(h, x) < LastEnlisted(h, y) {
        AheadAreListed(row.registered, x, y);
        LastEnlistedIs(front, x);
        if Enlists(e.op, x) { LastIsNotAhead(row.registered, x, y); }
      }
    }
  }

  lemma ShortListHasNoOrder(list: seq<string>)
    requires |list| <= 1
    ensures forall x, y :: !Ahead(list, x, y)
  {
  }

  lemma AheadAreListed(list: seq<string>, x: string, y: string)
    requires Ahead(list, x, y)
    ensures x in list && y in list
  {
  }

  lemma LastIsNotAhead(list: seq<string>, x: string, y: string)
    requires NoDuplicates(list) && list != [] && list[|list| - 1] == x
    ensures !Ahead(list, x, y)
  {
  }

  /** And a session a write evicts was put on it longest ago of all. */
  lemma EvictionTakesTheOldest(first: Agent, h: seq<Event>, row: Agent, i: nat, x: string, y: string)
    requires Linear(first, h, row) && TidyList(first.registered) && |first.registered| <= 1 && i < |h|
    requires x in h[i].before.registered && x !in h[i].after.registered && !TakesOff(h[i].before, h[i].op, x)
    requires y in h[i].before.registered && y != x
    ensures |h[i].before.registered| == 8 && LastEnlisted(h[..i], x) < LastEnlisted(h[..i], y)
  {
    hide Apply, Ahead;
    LinearPrefix(first, h, row, i);
    RegisteredStaysTidy(first, h[..i], h[i].before);
    ListIsInOrder(first, h[..i], h[i].before);
    ListAfter(h[i].before, h[i].op, h[i].now);
    FirstIsAhead(h[i].before.registered, y);
  }

  lemma FirstIsAhead(list: seq<string>, y: string)
    requires y in list
    ensures y != list[0] ==> Ahead(list, list[0], y)
  {
  }

  /** A claim puts its session last and revokes the session it displaces. */
  lemma ClaimRegisters(a: Agent, s: string, now: int)
    requires TidyList(a.registered)
    ensures var b := Apply(a, Claim(s), now); var d := Displaced(a, s);
            && b.registered != [] && b.registered[|b.registered| - 1] == s
            && (d.Some? ==> d.value.0 !in b.registered)
  {
    hide Apply, Append;
    ApplyRegisters(a, Claim(s), now);
    RevokedTidy(a, s);
    AppendKeeps(Revoked(a, s), s);
  }

  /** A write by which session `s` gets itself registered. */
  predicate Enrols(op: Op, s: string) {
    (op.Claim? && op.session == s) || (op.Assert? && op.binding == Some(s))
  }

  lemma OnlyEnrolmentAdds(a: Agent, op: Op, now: int, s: string)
    requires TidyList(a.registered) && s !in a.registered && !Enrols(op, s)
    ensures s !in Apply(a, op, now).registered
  {
    hide Apply, Append;
    ApplyRegisters(a, op, now);
    if op.Assert? && Names(op.binding) { AppendKeeps(a.registered, op.binding.value); }
    if op.Claim? {
      RevokedTidy(a, op.session);
      AppendKeeps(Revoked(a, op.session), op.session);
    }
  }

  /** A displaced session stays out until it registers itself anew. */
  lemma {:induction false} DisplacedStaysOut(first: Agent, h: seq<Event>, row: Agent, i: nat, s: string)
    requires Linear(first, h, row) && TidyList(first.registered) && i < |h| && h[i].op.Claim?
    requires var d := Displaced(h[i].before, h[i].op.session); d.Some? && d.value.0 == s
    requires forall j | i < j < |h| :: !Enrols(h[j].op, s)
    ensures s !in row.registered
    decreases |h|
  {
    hide Apply, Append, TidyList;
    var n := |h| - 1;
    RegisteredStaysTidy(first, h[..n], h[n].before);
    if i == n {
      ClaimRegisters(h[n].before, h[n].op.session, h[n].now);
    } else {
      DisplacedStaysOut(first, h[..n], h[n].before, i, s);
      OnlyEnrolmentAdds(h[n].before, h[n].op, h[n].now, s);
    }
  }

  /** Tearing down a session never takes the agent offline once another session has claimed it: a teardown
      that writes finds its own session current, so that session claimed the agent last. */
  lemma TeardownSparesTheReplacement(first: Agent, h: seq<Event>, row: Agent, i: nat, j: nat)
    requires Linear(first, h, row) && Unclaimed(first) && i < j < |h|
    requires h[i].op.Claim? && h[j].op.MarkOffline? && h[j].op.session != h[i].op.session
    ensures exists m :: i < m < j && h[m].op == Claim(h[j].op.session)
  {
    hide Apply;
    LinearPrefix(first, h, row, j);
    CountersMatchHistory(first, h[..j], h[j].before);
    LastClaimantAfter(h[..j], i);
  }

  lemma {:induction false} LastClaimantAfter(h: seq<Event>, i: nat)
    requires i < |h| && h[i].op.Claim? && LastClaimant(h) != Some(h[i].op.session)
    ensures LastClaimant(h).Some? && exists m :: i < m < |h| && h[m].op == Claim(LastClaimant(h).value)
    decreases |h|
  {
    var n := |h| - 1;
    if h[n].op.Claim? {
      assert h[n].op == Claim(LastClaimant(h).value);
    } else {
      LastClaimantAfter(h[..n], i);
      var m :| i < m < n && h[..n][m].op == Claim(LastClaimant(h[..n]).value);
      assert h[m].op == Claim(LastClaimant(h).value);
    }
  }
}
