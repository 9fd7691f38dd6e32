/** The displacement breaker among racing claims. */
module ClaimBreaker {
  import opened Substrate
  import opened Agents
  import opened Registry
  import Breaker

  /** Attempt `t` on agent `a` was let through. */
  ghost predicate TicketOk(attempts: map<string, seq<int>>, a: string, t: nat) {
    a in attempts && t < |attempts[a]| && Breaker.Passes(attempts[a], t)
  }

  ghost predicate WindowOk(w: World, a: string) {
    && (a in w.windows <==> a in w.past.attempts)
    && (a in w.windows ==> w.windows[a] == Breaker.Window(w.past.attempts[a]))
  }

  ghost predicate InOrder(w: World, a: string) {
    a in w.past.attempts && Breaker.Ordered(w.past.attempts[a]) && forall i | 0 <= i < |w.past.attempts[a]| :: w.past.attempts[a][i] <= w.past.clock
  }

  ghost predicate AcceptedOk(w: World, a: string) {
    a in w.past.accepted && var acc := w.past.accepted[a];
    && (forall i | 0 <= i < |acc| :: TicketOk(w.past.attempts, a, acc[i]))
    && (forall i, j | 0 <= i < j < |acc| :: acc[i] != acc[j])
  }

  predicate Holds(c: Call, a: string, t: nat) {
    c.Loaded? && c.agent == a && c.ticket == Some(t)
  }

  ghost predicate HolderOk(w: World, k: CallId) {
    k in w.calls && var c := w.calls[k];
    c.Loaded? && c.ticket.Some? ==>
      && TicketOk(w.past.attempts, c.agent, c.ticket.value)
      && (c.agent in w.past.accepted ==> c.ticket.value !in w.past.accepted[c.agent])
  }

  ghost predicate BreakerOk(w: World) {
    match w case World(_, _, _, _, _, calls, past) =>
      && (forall a {:trigger WindowOk(w, a)} :: WindowOk(w, a))
      && (past.steady ==> forall a {:trigger InOrder(w, a)} | a in past.attempts :: InOrder(w, a))
      && (forall a {:trigger AcceptedOk(w, a)} | a in past.accepted :: AcceptedOk(w, a))
      && (forall k {:trigger HolderOk(w, k)} | k in calls :: HolderOk(w, k))
      && (forall j, k, a, t {:trigger Holds(calls[j], a, t), Holds(calls[k], a, t)} | j in calls && k in calls && j != k :: !(Holds(calls[j], a, t) && Holds(calls[k], a, t)))
  }

  /** Nothing the breaker looks at changed, but that calls may have gone. */
  ghost predicate SameBreaker(w: World, w': World, k: CallId) {
    && w'.windows == w.windows && w'.past.attempts == w.past.attempts && w'.past.accepted == w.past.accepted
    && w'.past.clock == w.past.clock && w'.past.steady == w.past.steady
    && OnlyCall(w.calls, w'.calls, k)
    && (k in w'.calls && w'.calls[k].Loaded? && w'.calls[k].ticket.Some? ==> k in w.calls && w'.calls[k] == w.calls[k])
  }

  lemma SameBreakerOk(w: World, w': World, k: CallId)
    requires BreakerOk(w) && SameBreaker(w, w', k)
    ensures BreakerOk(w')
  {
    hide TicketOk;
    forall a ensures WindowOk(w', a) { assert WindowOk(w, a); }
    if w'.past.steady { forall a | a in w'.past.attempts ensures InOrder(w', a) { assert InOrder(w, a); } }
    forall a | a in w'.past.accepted ensures AcceptedOk(w', a) { assert AcceptedOk(w, a); }
    forall j | j in w'.calls ensures HolderOk(w', j) { if j in w.calls { assert HolderOk(w, j); } }
    forall i, j, a, t | i in w'.calls && j in w'.calls && i != j ensures !(Holds(w'.calls[i], a, t) && Holds(w'.calls[j], a, t)) {
      if i in w.calls && j in w.calls { assert !(Holds(w.calls[i], a, t) && Holds(w.calls[j], a, t)); }
    }
  }

  lemma PassesAgain(log: seq<int>, now: int, t: nat)
    requires t < |log|
    ensures Breaker.Passes(log + [now], t) <==> Breaker.Passes(log, t)
  {
    assert (log + [now])[..t + 1] == log[..t + 1];
  }

  lemma AttemptKeepsTickets(attempts: map<string, seq<int>>, b: string, now: int, a: string, t: nat)
    requires TicketOk(attempts, a, t)
    ensures TicketOk(attempts[b := Lookup(attempts, b) + [now]], a, t)
  {
    if a == b { PassesAgain(attempts[a], now, t); }
  }

  lemma EmptyWindow()
    ensures Breaker.Window([]) == []
  {
  }

  lemma AttemptWindows(w: World, b: string, now: int)
    requires BreakerOk(w)
    ensures var u := Attempted(w, b, now);
            && (forall a :: WindowOk(u, a)) && (u.past.steady ==> forall a | a in u.past.attempts :: InOrder(u, a))
  {
    hide TicketOk, AcceptedOk, HolderOk, Breaker.Window, Breaker.Kept;
    var u := Attempted(w, b, now);
    EmptyWindow();
    Breaker.WindowGrows(Lookup(w.past.attempts, b), now);
    forall a ensures WindowOk(u, a) { assert WindowOk(w, a); assert WindowOk(w, b); }
    if u.past.steady { forall a | a in u.past.attempts ensures InOrder(u, a) { if a in w.past.attempts { assert InOrder(w, a); } } }
  }

  lemma AttemptTickets(w: World, b: string, now: int)
    requires BreakerOk(w)
    ensures var u := Attempted(w, b, now);
            && (forall a | a in u.past.accepted :: AcceptedOk(u, a)) && (forall j | j in u.calls :: HolderOk(u, j))
  {
    hide TicketOk, WindowOk, InOrder;
    var u := Attempted(w, b, now);
    forall a | a in u.past.accepted ensures AcceptedOk(u, a) {
      assert AcceptedOk(w, a);
      forall i | 0 <= i < |u.past.accepted[a]| ensures TicketOk(u.past.attempts, a, u.past.accepted[a][i]) {
        AttemptKeepsTickets(w.past.attempts, b, now, a, w.past.accepted[a][i]);
      }
    }
    forall j | j in u.calls ensures HolderOk(u, j) {
      assert HolderOk(w, j);
      var c := w.calls[j];
      if c.Loaded? && c.ticket.Some? { AttemptKeepsTickets(w.past.attempts, b, now, c.agent, c.ticket.value); }
    }
  }

  /** The breaker has recorded one more attempt on agent `b`. */
  lemma AttemptOk(w: World, b: string, now: int)
    requires BreakerOk(w)
    ensures BreakerOk(Attempted(w, b, now))
    ensures var u := Attempted(w, b, now); var n := |Lookup(w.past.attempts, b)|;
            && u.calls == w.calls && b in u.windows && b in u.past.attempts && |u.past.attempts[b]| == n + 1
            && (|u.windows[b]| <= Breaker.THRESHOLD <==> TicketOk(u.past.attempts, b, n))
  {
    hide TicketOk, InOrder, AcceptedOk, HolderOk, Breaker.Window, Breaker.Kept;
    var u := Attempted(w, b, now);
    AttemptWindows(w, b, now);
    AttemptTickets(w, b, now);
    assert WindowOk(u, b);
    TicketIs(u.past.attempts, b, |Lookup(w.past.attempts, b)|);
  }

  lemma TicketIs(attempts: map<string, seq<int>>, a: string, t: nat)
    requires a in attempts && t + 1 == |attempts[a]|
    ensures TicketOk(attempts, a, t) <==> |Breaker.Window(attempts[a])| <= Breaker.THRESHOLD
  {
    assert attempts[a][..t + 1] == attempts[a];
  }

  /** The call that made the newest attempt takes its ticket. */
  lemma TicketTaken(u: World, k: CallId, c: Call)
    requires BreakerOk(u) && c.Loaded? && c.ticket.Some? && c.agent in u.past.attempts && |u.past.attempts[c.agent]| == c.ticket.value + 1
    requires TicketOk(u.past.attempts, c.agent, c.ticket.value)
    requires forall j | j in u.calls && j != k && u.calls[j].Loaded? && u.calls[j].agent == c.agent && u.calls[j].ticket.Some? :: u.calls[j].ticket.value < c.ticket.value
    requires c.agent in u.past.accepted ==> forall t | t in u.past.accepted[c.agent] :: t < c.ticket.value
    ensures BreakerOk(At(u, k, c))
  {
    hide TicketOk;
    var w' := At(u, k, c);
    forall a ensures WindowOk(w', a) { assert WindowOk(u, a); }
    if w'.past.steady { forall a | a in w'.past.attempts ensures InOrder(w', a) { assert InOrder(u, a); } }
    forall a | a in w'.past.accepted ensures AcceptedOk(w', a) { assert AcceptedOk(u, a); }
    forall j | j in w'.calls ensures HolderOk(w', j) { if j != k { assert HolderOk(u, j); } }
    forall i, j, a, t | i in w'.calls && j in w'.calls && i != j ensures !(Holds(w'.calls[i], a, t) && Holds(w'.calls[j], a, t)) {
      if i != k && j != k { assert !(Holds(u.calls[i], a, t) && Holds(u.calls[j], a, t)); }
    }
  }

  lemma TicketsAreOld(w: World, a: string)
    requires BreakerOk(w)
    ensures forall j | j in w.calls && w.calls[j].Loaded? && w.calls[j].agent == a && w.calls[j].ticket.Some? :: w.calls[j].ticket.value < |Lookup(w.past.attempts, a)|
    ensures a in w.past.accepted ==> forall t | t in w.past.accepted[a] :: t < |Lookup(w.past.attempts, a)|
  {
    forall j | j in w.calls && w.calls[j].Loaded? && w.calls[j].agent == a && w.calls[j].ticket.Some? ensures w.calls[j].ticket.value < |Lookup(w.past.attempts, a)| {
      assert HolderOk(w, j);
    }
    if a in w.past.accepted {
      assert AcceptedOk(w, a);
      forall t | t in w.past.accepted[a] ensures t < |Lookup(w.past.attempts, a)| {
        var i :| 0 <= i < |w.past.accepted[a]| && w.past.accepted[a][i] == t;
        assert TicketOk(w.past.attempts, a, w.past.accepted[a][i]);
      }
    }
  }

  lemma LoadBreaker(w: World, k: CallId, now: int)
    requires BreakerOk(w) && k in w.calls && w.calls[k].Ready?
    ensures BreakerOk(DoLoad(w, k, now))
  {
    hide BreakerOk, Attempted, Ticked, TicketOk, At, Done, Applies;
    var c := w.calls[k];
    if c.agent in w.agents && c.op.Claim? && w.agents[c.agent].row.online {
      var u := Attempted(w, c.agent, now);
      AttemptOk(w, c.agent, now);
      TicketsAreOld(w, c.agent);
      DropsBreaker(u, k);
      if |u.windows[c.agent]| <= Breaker.THRESHOLD {
        AttemptKeepsRest(w, c.agent, now);
        TicketTaken(u, k, Loaded(c.agent, c.op, c.tries, w.agents[c.agent], now, Some(|Lookup(w.past.attempts, c.agent)|)));
      }
    } else {
      DropsBreaker(w, k);
      TickedBreaker(w, c.op, now);
      if c.agent in w.agents { PlainBreaker(Ticked(w, c.op, now), k, Loaded(c.agent, c.op, c.tries, w.agents[c.agent], now, None)); }
    }
  }

  lemma TickedBreaker(w: World, op: Op, now: int)
    requires BreakerOk(w)
    ensures BreakerOk(Ticked(w, op, now))
  {
    hide TicketOk;
    var w' := Ticked(w, op, now);
    forall a ensures WindowOk(w', a) { assert WindowOk(w, a); }
    if w'.past.steady { forall a | a in w'.past.attempts ensures InOrder(w', a) { assert InOrder(w, a); } }
    forall a | a in w'.past.accepted ensures AcceptedOk(w', a) { assert AcceptedOk(w, a); }
    forall j | j in w'.calls ensures HolderOk(w', j) { assert HolderOk(w, j); }
  }

  lemma AttemptKeepsRest(w: World, a: string, now: int)
    ensures var u := Attempted(w, a, now); u.calls == w.calls && u.past.accepted == w.past.accepted
  {
  }

  lemma DropsBreaker(w: World, k: CallId)
    requires BreakerOk(w)
    ensures BreakerOk(Done(w, k))
  {
    hide BreakerOk;
    SameBreakerOk(w, Done(w, k), k);
  }

  /** A call moves to a stage in which it holds no ticket. */
  lemma PlainBreaker(w: World, k: CallId, c: Call)
    requires BreakerOk(w) && !(c.Loaded? && c.ticket.Some?)
    ensures BreakerOk(At(w, k, c))
  {
    hide BreakerOk;
    SameBreakerOk(w, At(w, k, c), k);
  }

  /** A claim with a ticket is committed: the ticket is spent. */
  lemma TicketSpent(w: World, w': World, k: CallId)
    requires BreakerOk(w) && k in w.calls && w.calls[k].Loaded?
    requires w'.windows == w.windows && w'.past.attempts == w.past.attempts && w'.past.clock == w.past.clock && w'.past.steady == w.past.steady
    requires w'.past.accepted == Accept(w.past, w.calls[k].agent, w.calls[k].ticket).accepted
    requires OnlyCall(w.calls, w'.calls, k) && (k in w'.calls ==> !w'.calls[k].Loaded?)
    ensures BreakerOk(w')
  {
    hide TicketOk;
    var c := w.calls[k];
    assert HolderOk(w, k);
    forall a ensures WindowOk(w', a) { assert WindowOk(w, a); }
    if w'.past.steady { forall a | a in w'.past.attempts ensures InOrder(w', a) { assert InOrder(w, a); } }
    forall a | a in w'.past.accepted ensures AcceptedOk(w', a) { if a in w.past.accepted { assert AcceptedOk(w, a); } }
    forall j | j in w'.calls ensures HolderOk(w', j) {
      if j != k {
        assert HolderOk(w, j);
        var d := w.calls[j];
        if c.ticket.Some? && d.Loaded? && d.ticket.Some? && d.agent == c.agent {
          assert !(Holds(w.calls[j], c.agent, c.ticket.value) && Holds(w.calls[k], c.agent, c.ticket.value));
        }
      }
    }
    forall i, j, a, t | i in w'.calls && j in w'.calls && i != j ensures !(Holds(w'.calls[i], a, t) && Holds(w'.calls[j], a, t)) {
      if i != k && j != k { assert !(Holds(w.calls[i], a, t) && Holds(w.calls[j], a, t)); }
    }
  }

  lemma EnrolKeepsBreaker(w: World, k: CallId, a: string, before: seq<string>, after: seq<string>, s: Option<string>, displaced: Option<string>)
    ensures var w' := Enrol(w, k, a, before, after, s, displaced);
            && w'.windows == w.windows && w'.past.attempts == w.past.attempts && w'.past.accepted == w.past.accepted
            && w'.past.clock == w.past.clock && w'.past.steady == w.past.steady
  {
  }

  lemma WonBreaker(w: World, k: CallId)
    requires BreakerOk(w) && Wins(w, k)
    ensures BreakerOk(DoCommit(w, k))
  {
    hide BreakerOk, Apply, Displaced, Enrolee, Minus, OnlyCall, Enrol, Accept;
    var c := w.calls[k];
    var next := Apply(c.seen.row, c.op, c.now);
    var past := w.past.(hist := w.past.hist[c.agent := Lookup(w.past.hist, c.agent) + [Event(c.op, c.now, c.seen.row, next)]]);
    AcceptKeeps(past, c.agent, c.ticket);
    AcceptsAlike(past, w.past, c.agent, c.ticket);
    var u := w.(agents := w.agents[c.agent := Versioned(next, w.rev + 1)], rev := w.rev + 1, past := Accept(past, c.agent, c.ticket));
    var d := if c.op.Claim? then Displaced(c.seen.row, c.op.session) else None;
    EnrolKeeps(u, k, c.agent, c.seen.row.registered, next.registered, Enrolee(c.op), if d.Some? then Some(d.value.0) else None);
    EnrolKeepsBreaker(u, k, c.agent, c.seen.row.registered, next.registered, Enrolee(c.op), if d.Some? then Some(d.value.0) else None);
    CallMoves(w.calls, k, if k in DoCommit(w, k).calls then DoCommit(w, k).calls[k] else Found("", ""));
    TicketSpent(w, DoCommit(w, k), k);
  }

  lemma CommitBreaker(w: World, k: CallId)
    requires BreakerOk(w) && k in w.calls && w.calls[k].Loaded?
    ensures BreakerOk(DoCommit(w, k))
  {
    hide BreakerOk, Apply, At, Done;
    var c := w.calls[k];
    if Wins(w, k) {
      hide DoCommit;
      WonBreaker(w, k);
    } else {
      DropsBreaker(w, k);
      PlainBreaker(w, k, Ready(c.agent, c.op, c.tries + 1));
    }
  }

  lemma AcceptsAlike(p: Past, q: Past, a: string, ticket: Option<nat>)
    requires p.accepted == q.accepted
    ensures Accept(p, a, ticket).accepted == Accept(q, a, ticket).accepted
  {
  }

  lemma MirrorWindows(w: World, k: CallId, ok: bool)
    ensures SameWindows(w, DoMirror(w, k, ok))
  {
    if k in w.calls && w.calls[k].Mirroring? {
      hide AddPointer, DropPointer, Remember;
      var c := w.calls[k];
      if c.adds != [] { AddDoes(w, k, c, ok); } else if c.dels != [] { DropDoes(w, k, c, ok); } else { RememberDoes(w, k, c); }
    }
  }

  lemma CreateWindows(w: World, k: CallId, a: string, session: Option<string>, now: int)
    ensures SameWindows(w, DoCreate(w, k, a, session, now))
  {
    hide Minus;
  }

  lemma SessionWindows(w: World, k: CallId, a: string, op: Op, s: string)
    ensures SameWindows(w, DoBegin(w, k, a, op)) && SameWindows(w, DoLookUp(w, k, s)) && SameWindows(w, DoRehydrate(w, k))
  {
  }

  lemma AbandonWindows(w: World, k: CallId)
    ensures SameWindows(w, DoAbandon(w, k))
  {
  }

  lemma OtherBreaker(w: World, s: Step)
    requires !s.Load? && !s.Commit? && !s.Restart?
    ensures SameWindows(w, Do(w, s))
  {
    hide DoMirror, DoCreate, DoBegin, DoRefill, DoLookUp, DoRehydrate, DoAbandon;
    match s
    case Mirror(k, ok) => MirrorWindows(w, k, ok);
    case Create(k, a, binding, now) => CreateWindows(w, k, a, binding, now);
    case Begin(k, a, op) => SessionWindows(w, k, a, op, "");
    case Refill(k, a, session) => if k !in w.calls { RefillRows(w, k, a, session); }
    case LookUp(k, session) => SessionWindows(w, k, "", Heartbeat, session);
    case Rehydrate(k) => SessionWindows(w, k, "", Heartbeat, "");
    case Abandon(k) => AbandonWindows(w, k);
    case Forget(_, _) =>
  }

  lemma CreateCalls(w: World, s: Step)
    requires s.Create?
    ensures OnlyCall(w.calls, Do(w, s).calls, s.k) && (s.k in Do(w, s).calls && Do(w, s).calls[s.k].Loaded? ==> s.k in w.calls && w.calls[s.k] == Do(w, s).calls[s.k])
  {
    hide OnlyCall, Minus;
    CallMoves(w.calls, s.k, if s.k in Do(w, s).calls then Do(w, s).calls[s.k] else Found("", ""));
  }

  lemma StepBreaker(w: World, s: Step)
    requires BreakerOk(w)
    ensures BreakerOk(Do(w, s))
  {
    hide BreakerOk, DoLoad, DoCommit, OnlyCall;
    if s.Load? { if s.k in w.calls && w.calls[s.k].Ready? { LoadBreaker(w, s.k, s.now); } else { NoLoad(w, s.k, s.now); } }
    else if s.Commit? { if s.k in w.calls && w.calls[s.k].Loaded? { CommitBreaker(w, s.k); } else { NoCommit(w, s.k); } }
    else if s.Restart? { RestartBreaker(w); }
    else {
      hide Do;
      OtherBreaker(w, s);
      if s.Create? { CreateCalls(w, s); } else { OtherRows(w, s); }
      SameBreakerOk(w, Do(w, s), s.k);
    }
  }

  lemma RestartBreaker(w: World)
    ensures BreakerOk(DoRestart(w))
  {
  }

  lemma {:induction false} RunBreaker(w: World, steps: seq<Step>)
    requires BreakerOk(w)
    ensures BreakerOk(Run(w, steps))
    decreases |steps|
  {
    hide BreakerOk, Do;
    if steps != [] {
      StepBreaker(w, steps[0]);
      RunBreaker(Do(w, steps[0]), steps[1..]);
    }
  }

  /** However claims race, retry and lose, and whatever else is written meanwhile: since the last restart, and while
      the clock does not go backwards, no closed window of a minute holds more than three claims that were
      accepted although the agent's row said online. */
  lemma ThreeDisplacementsAMinute(steps: seq<Step>, a: string, i: nat, j: nat, k: nat, l: nat)
    requires var p := Reached(steps).past; p.steady && a in p.accepted && a in p.attempts
    requires i < j < k < l && var acc := Reached(steps).past.accepted[a]; i in acc && j in acc && k in acc && l in acc
    ensures var times := Reached(steps).past.attempts[a]; l < |times| && times[l] - times[i] > 60000
  {
    var w := Reached(steps);
    RunBreaker(Init(), steps);
    assert AcceptedOk(w, a) && InOrder(w, a);
    var n :| 0 <= n < |w.past.accepted[a]| && w.past.accepted[a][n] == l;
    assert TicketOk(w.past.attempts, a, w.past.accepted[a][n]);
    Breaker.PassesIffNoFourInAWindow(w.past.attempts[a], l);
    assert w.past.attempts[a][i] <= w.past.attempts[a][l - 3];
  }
}
