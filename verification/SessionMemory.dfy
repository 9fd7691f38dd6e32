/** When a session is forgotten for good. */
module SessionMemory {
  import opened Substrate
  import opened Agents
  import opened Registry
  import opened SessionIndex
  import opened SessionResolution

  /** The call may yet bring the session back: it registers it, owes its pointer row a put, will remember it, or has looked
      it up. */
  predicate Knows(c: Call, s: string) {
    match c
    case Ready(_, op, _) => Enrols(op, s)
    case Loaded(_, op, _, _, _, _) => Enrols(op, s)
    case Mirroring(_, adds, _, session, _) => s in adds || session == Some(s)
    case Found(bound, _) => bound == s
  }

  /** The session is in no map, no pointer row, no agent's list, and no call in flight. */
  ghost predicate Forgotten(w: World, s: string) {
    && s !in w.sessions && s !in w.bindings
    && (forall a {:trigger w.agents[a]} | a in w.agents :: s !in w.agents[a].row.registered)
    && (forall k {:trigger w.calls[k]} | k in w.calls :: !Knows(w.calls[k], s))
  }

  /** A step by which the session sets out to register. */
  predicate Introduces(st: Step, s: string) {
    match st
    case Create(_, _, binding, _) => binding == Some(s)
    case Begin(_, _, op) => Enrols(op, s)
    case _ => false
  }

  /** Nothing but call `k` moved, and it does not know the session. */
  lemma MovesOn(w: World, w': World, k: CallId, s: string)
    requires Forgotten(w, s) && OnlyCall(w.calls, w'.calls, k) && (k in w'.calls ==> !Knows(w'.calls[k], s))
    requires w'.agents == w.agents && s !in w'.sessions && s !in w'.bindings
    ensures Forgotten(w', s)
  {
  }

  lemma CreateForgets(w: World, st: Step, s: string)
    requires Forgotten(w, s) && st.Create? && st.k !in w.calls && st.binding != Some(s)
    ensures Forgotten(DoCreate(w, st.k, st.agent, st.binding, st.now), s)
  {
    hide Owing;
    MinusIs(Newborn(st.binding, st.now).registered, []);
  }

  lemma BeginForgets(w: World, k: CallId, a: string, op: Op, s: string)
    requires Forgotten(w, s) && k !in w.calls && !Enrols(op, s)
    ensures Forgotten(DoBegin(w, k, a, op), s)
  {
  }

  lemma LoadForgets(w: World, k: CallId, now: int, s: string)
    requires Forgotten(w, s) && k in w.calls && w.calls[k].Ready?
    ensures Forgotten(DoLoad(w, k, now), s)
  {
    hide DoLoad;
    var w' := DoLoad(w, k, now);
    LoadShape(w, k, now);
    LoadMemory(w, k, now);
    assert !Knows(w.calls[k], s);
    MovesOn(w, w', k, s);
  }

  lemma LoadMemory(w: World, k: CallId, now: int)
    ensures DoLoad(w, k, now).sessions == w.sessions && DoLoad(w, k, now).bindings == w.bindings
  {
    hide Applies;
  }

  /** What a winning commit leaves in flight. */
  lemma CommitLeaves(w: World, k: CallId)
    requires Wins(w, k)
    ensures var c, w' := w.calls[k], DoCommit(w, k);
            && w'.sessions == w.sessions && w'.bindings == w.bindings
            && (if Registers(c.op)
                then k in w'.calls && w'.calls[k].Mirroring? && w'.calls[k].session == Enrolee(c.op)
                     && w'.calls[k].adds == Minus(Apply(c.seen.row, c.op, c.now).registered, c.seen.row.registered)
                else k !in w'.calls)
  {
    hide Apply, Minus, Displaced, Enrolee, Owing;
  }

  lemma CommitForgets(w: World, k: CallId, s: string)
    requires RowsOk(w) && Forgotten(w, s) && k in w.calls && w.calls[k].Loaded?
    ensures Forgotten(DoCommit(w, k), s)
  {
    hide RowsOk, DoCommit, Apply, Applies, OneRowWritten;
    var c, w' := w.calls[k], DoCommit(w, k);
    CommitKnows(w, k);
    if Wins(w, k) {
      CommitWins(w, k);
      CommitLeaves(w, k);
      ListsTidy(w, c.agent);
      assert !Knows(c, s) && w.agents[c.agent] == c.seen;
      OnlyEnrolmentAdds(c.seen.row, c.op, c.now, s);
      MinusIs(Apply(c.seen.row, c.op, c.now).registered, c.seen.row.registered);
      OneRowForgets(w, w', k, c.agent, s);
    } else {
      CommitLoses(w, k);
      LostForgets(w, w', k, s);
    }
  }

  lemma LostForgets(w: World, w': World, k: CallId, s: string)
    requires Forgotten(w, s) && SameRows(w, w', k) && w' == w.(calls := w'.calls) && k in w.calls && w.calls[k].Loaded? && w' == DoCommit(w, k) && !Wins(w, k)
    ensures Forgotten(w', s)
  {
    hide Apply;
    assert !Knows(w.calls[k], s);
    MovesOn(w, w', k, s);
  }

  lemma OneRowForgets(w: World, w': World, k: CallId, a: string, s: string)
    requires Forgotten(w, s) && OneRowWritten(w, w', k, a) && s !in w'.agents[a].row.registered && w'.sessions == w.sessions && w'.bindings == w.bindings
    requires k in w'.calls ==> !Knows(w'.calls[k], s)
    ensures Forgotten(w', s)
  {
    forall j | j in w'.calls ensures !Knows(w'.calls[j], s) { if j != k { assert j in w.calls && w'.calls[j] == w.calls[j]; } }
  }

  lemma MirrorForgets(w: World, k: CallId, ok: bool, s: string)
    requires Forgotten(w, s) && k in w.calls && w.calls[k].Mirroring?
    ensures Forgotten(DoMirror(w, k, ok), s)
  {
    hide AddPointer, DropPointer, Remember, OnlyCall;
    var c, w' := w.calls[k], DoMirror(w, k, ok);
    assert !Knows(c, s);
    MirrorRows(w, k, ok);
    if c.adds != [] { AddDoes(w, k, c, ok); PointerMemory(w, k, c, ok); MovesOn(w, w', k, s); }
    else if c.dels != [] { DropDoes(w, k, c, ok); PointerMemory(w, k, c, ok); MovesOn(w, w', k, s); }
    else { RememberDoes(w, k, c); RememberMemory(w, k, c); MovesOn(w, w', k, s); }
  }

  lemma PointerMemory(w: World, k: CallId, c: Call, ok: bool)
    requires c.Mirroring?
    ensures c.adds != [] ==> AddPointer(w, k, c, ok).sessions == w.sessions
    ensures c.dels != [] ==> DropPointer(w, k, c, ok).sessions == w.sessions
  {
  }

  lemma RememberMemory(w: World, k: CallId, c: Call)
    requires c.Mirroring?
    ensures forall s | s in Remember(w, k, c).sessions :: s in w.sessions || c.session == Some(s)
  {
  }

  lemma OtherForgets(w: World, st: Step, s: string)
    requires Forgotten(w, s) && (st.Refill? || st.LookUp? || st.Rehydrate? || st.Forget? || st.Abandon? || st.Restart?) && !(Opens(st) && st.k in w.calls)
    ensures Forgotten(Do(w, st), s)
  {
    hide AllOwed;
  }

  lemma StepForgets(w: World, st: Step, s: string)
    requires RowsOk(w) && Forgotten(w, s) && !Introduces(st, s)
    ensures Forgotten(Do(w, st), s)
  {
    hide RowsOk, Forgotten, DoCreate, DoBegin, DoLoad, DoCommit, DoMirror;
    if !(Opens(st) && st.k in w.calls) {
      match st
      case Create(k, a, binding, now) => CreateForgets(w, st, s);
      case Begin(k, a, op) => BeginForgets(w, k, a, op, s);
      case Load(k, now) => if k in w.calls && w.calls[k].Ready? { LoadForgets(w, k, now, s); } else { NoLoad(w, k, now); }
      case Commit(k) => if k in w.calls && w.calls[k].Loaded? { CommitForgets(w, k, s); } else { NoCommit(w, k); }
      case Mirror(k, ok) => if k in w.calls && w.calls[k].Mirroring? { MirrorForgets(w, k, ok, s); } else { NoMirror(w, k, ok); }
      case _ => OtherForgets(w, st, s);
    }
  }

  lemma {:induction false} RunForgets(w: World, steps: seq<Step>, s: string)
    requires RowsOk(w) && Forgotten(w, s) && forall st | st in steps :: !Introduces(st, s)
    ensures Forgotten(Run(w, steps), s)
    decreases |steps|
  {
    hide RowsOk, Forgotten, Do;
    if steps != [] {
      assert steps[0] in steps;
      StepRows(w, steps[0]);
      StepForgets(w, steps[0], s);
      RunForgets(Do(w, steps[0]), steps[1..], s);
    }
  }

  /** Once a session is in no map, no pointer row, no agent's list and no call in flight, it resolves to nothing at every
      later moment of the run, until it sets out to register itself: no retry, eviction, look-up, backfill or restart brings
      it back. */
  lemma ForgottenForGood(steps: seq<Step>, more: seq<Step>, s: string)
    requires Forgotten(Reached(steps), s) && forall st | st in more :: !Introduces(st, s)
    ensures Forgotten(Reached(steps + more), s) && Resolve(Reached(steps + more), s) == None
  {
    hide RowsOk;
    ReachedIndex(steps);
    ReachedOn(steps, more);
    RunForgets(Reached(steps), more, s);
  }
}
