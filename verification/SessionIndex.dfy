/** The session pointer rows: whose list each shows, and when they agree with the agents' own lists. */
module SessionIndex {
  import opened Substrate
  import opened Agents
  import opened Registry

  lemma {:induction false} MinusIs(xs: seq<string>, ys: seq<string>)
    ensures forall x :: x in Minus(xs, ys) <==> x in xs && x !in ys
    ensures NoDuplicates(xs) ==> NoDuplicates(Minus(xs, ys))
  {
    if xs != [] {
      MinusIs(xs[1..], ys);
      assert xs == [xs[0]] + xs[1..];
      if NoDuplicates(xs) && xs[0] !in ys {
        assert xs[0] !in xs[1..];
        JoinedDistinct([xs[0]], Minus(xs[1..], ys));
      }
    }
  }

  /* ------------------------------------------------------------------ the index */

  /** The part of the world the index lives in. */
  datatype Index = Index(now: map<string, seq<string>>, lists: map<string, seq<seq<string>>>, bindings: map<string, string>,
                         writers: map<CallId, Call>, version: map<CallId, nat>, wrote: map<string, (string, nat)>,
                         lapsed: set<(string, string)>, users: map<string, string>, mixed: set<string>)

  function Lists(agents: Table<Agent>): map<string, seq<string>> {
    map a | a in agents :: agents[a].row.registered
  }

  function Writers(calls: map<CallId, Call>): map<CallId, Call> {
    map k | k in calls && calls[k].Mirroring? :: calls[k]
  }

  function IndexOf(w: World): Index {
    Index(Lists(w.agents), w.past.lists, w.bindings, Writers(w.calls), w.past.version, w.past.wrote, w.past.lapsed, w.past.users, w.past.mixed)
  }

  predicate Bound(x: Index, a: string, s: string) {
    s in x.bindings && x.bindings[s] == a
  }

  predicate Listed(x: Index, a: string, s: string) {
    a in x.now && s in x.now[a]
  }

  /* ------------------------------------------------------------------ a pointer row shows the list last written */

  /** The lists of the agent as its registrations left them end with the one it has. */
  ghost predicate ListsOk(x: Index, a: string) {
    a in x.now && a in x.lists && x.lists[a] != [] && x.lists[a][|x.lists[a]| - 1] == x.now[a]
  }

  /** A writer adds what its version of the list has, and drops what it has not. */
  ghost predicate WriterOk(x: Index, k: CallId) {
    && k in x.writers && x.writers[k].Mirroring? && k in x.version
    && var c, v := x.writers[k], x.version[k];
    && c.agent in x.lists && v < |x.lists[c.agent]|
    && (forall s | s in c.adds :: s in x.lists[c.agent][v]) && (forall s | s in c.dels :: s !in x.lists[c.agent][v])
  }

  /** The version of an agent's list that the pointer row of `s` was last written from has the session. */
  predicate Shows(x: Index, a: string, s: string) {
    && s in x.wrote && x.wrote[s].0 == a && a in x.lists && x.wrote[s].1 < |x.lists[a]|
    && s in x.lists[a][x.wrote[s].1]
  }

  ghost predicate PointerOk(x: Index, s: string) {
    && (s in x.wrote ==> x.wrote[s].0 in x.lists && x.wrote[s].1 < |x.lists[x.wrote[s].0]|)
    && (s in x.bindings <==> s in x.wrote && Shows(x, x.wrote[s].0, s))
    && (s in x.bindings ==> x.bindings[s] == x.wrote[s].0)
  }

  ghost predicate WritesOk(x: Index) {
    && x.lists.Keys == x.now.Keys
    && (forall a {:trigger ListsOk(x, a)} | a in x.now :: ListsOk(x, a))
    && (forall k {:trigger WriterOk(x, k)} | k in x.writers :: WriterOk(x, k))
    && (forall s {:trigger PointerOk(x, s)} :: PointerOk(x, s))
  }

  /* ------------------------------------------------------------------ when that is the list it has now */

  predicate UsedBy(x: Index, s: string, a: string) {
    s in x.users && x.users[s] == a
  }

  ghost predicate WriterTidy(x: Index, k: CallId) {
    && k in x.writers && x.writers[k].Mirroring? && var c := x.writers[k];
    && NoDuplicates(c.adds) && NoDuplicates(c.dels) && (forall s | s in c.adds :: s !in c.dels)
    && (forall s | s !in x.mixed && (s in c.adds || s in c.dels) :: UsedBy(x, s, c.agent))
  }

  ghost predicate SessionUsed(x: Index, s: string) {
    s !in x.mixed ==> (s in x.bindings ==> UsedBy(x, s, x.bindings[s])) && forall a | a in x.now && s in x.now[a] :: UsedBy(x, s, a)
  }

  /** Whoever owes the row of `s` for `a` will write what the list has, and if nobody does the row shows it. */
  ghost predicate Clear(x: Index, a: string, s: string) {
    && (forall k | k in x.writers && Owes(x.writers[k], a, s) :: s in x.writers[k].adds <==> Listed(x, a, s))
    && (!Owing(x.writers, a, s) ==> (Bound(x, a, s) <==> Listed(x, a, s)))
  }

  predicate Settleable(x: Index, a: string, s: string) {
    a in x.now && (a, s) !in x.lapsed && s !in x.mixed
  }

  ghost predicate ClearOk(x: Index) {
    && (forall k {:trigger WriterTidy(x, k)} | k in x.writers :: WriterTidy(x, k))
    && (forall s {:trigger SessionUsed(x, s)} :: SessionUsed(x, s))
    && (forall a, s {:trigger Clear(x, a, s)} | Settleable(x, a, s) :: Clear(x, a, s))
  }

  ghost predicate IndexOk(x: Index) {
    WritesOk(x) && ClearOk(x)
  }

  /* ------------------------------------------------------------------ how the index moves */

  function Before(x: Index, a: string): seq<string> {
    if a in x.now then x.now[a] else []
  }

  /** A registration is committed: the list becomes `after`, and its writer starts out owing the difference. */
  function Enrolled(x: Index, k: CallId, a: string, after: seq<string>, s: Option<string>, displaced: Option<string>): Index {
    var adds, dels := Minus(after, Before(x, a)), Minus(Before(x, a), after);
    x.(now := x.now[a := after], lists := x.lists[a := Lookup(x.lists, a) + [after]],
       writers := x.writers[k := Mirroring(a, adds, dels, s, displaced)], version := x.version[k := |Lookup(x.lists, a)|],
       lapsed := x.lapsed + (set y | y in adds + dels && Owing(x.writers, a, y) :: (a, y)),
       users := if s.Some? && s.value !in x.users then x.users[s.value := a] else x.users,
       mixed := if s.Some? && s.value in x.users && x.users[s.value] != a then x.mixed + {s.value} else x.mixed)
  }

  function Less(c: Call): Call
    requires c.Mirroring? && (c.adds != [] || c.dels != [])
  {
    if c.adds != [] then Mirroring(c.agent, c.adds[1..], c.dels, c.session, c.displaced) else Mirroring(c.agent, [], c.dels[1..], c.session, c.displaced)
  }

  function Next(c: Call): string
    requires c.Mirroring? && (c.adds != [] || c.dels != [])
  {
    if c.adds != [] then c.adds[0] else c.dels[0]
  }

  /** The backfill at boot starts out owing one row of the list as it is. */
  function Refilled(x: Index, k: CallId, a: string, s: string): Index {
    x.(writers := x.writers[k := Mirroring(a, [s], [], None, None)], version := x.version[k := Current(x.lists, a)])
  }

  /** A writer has written the next of its pointer rows. */
  function Written(x: Index, k: CallId, c: Call): Index
    requires c.Mirroring? && (c.adds != [] || c.dels != []) && k in x.version
  {
    x.(bindings := if c.adds != [] then x.bindings[Next(c) := c.agent] else x.bindings - {Next(c)}, writers := x.writers[k := Less(c)],
       wrote := x.wrote[Next(c) := (c.agent, x.version[k])])
  }

  /** The write failed, and the writer goes on. */
  function Skipped(x: Index, k: CallId, c: Call): Index
    requires c.Mirroring? && (c.adds != [] || c.dels != [])
  {
    x.(writers := x.writers[k := Less(c)], lapsed := x.lapsed + {(c.agent, Next(c))})
  }

  /** A writer is gone, and what it still owed is lost. */
  function Gone(x: Index, k: CallId, c: Call): Index
    requires c.Mirroring?
  {
    x.(writers := x.writers - {k}, lapsed := x.lapsed + (set s | s in c.adds + c.dels :: (c.agent, s)))
  }

  /** A restart kills every writer. */
  function Restarted(x: Index): Index {
    x.(writers := map[], lapsed := x.lapsed + AllOwed(x.writers))
  }

  lemma LessIs(c: Call)
    requires c.Mirroring? && (c.adds != [] || c.dels != [])
    ensures var d := Less(c);
            && d.agent == c.agent
            && (forall s | s in d.adds :: s in c.adds) && (forall s | s in d.dels :: s in c.dels)
            && (forall s | s != Next(c) && s in c.adds :: s in d.adds) && (forall s | s != Next(c) && s in c.dels :: s in d.dels)
    ensures NoDuplicates(c.adds) && NoDuplicates(c.dels) && (forall s | s in c.adds :: s !in c.dels) ==>
              NoDuplicates(Less(c).adds) && NoDuplicates(Less(c).dels) && Next(c) !in Less(c).adds && Next(c) !in Less(c).dels
  {
    assert c.adds != [] ==> c.adds == [c.adds[0]] + c.adds[1..];
    assert c.dels != [] ==> c.dels == [c.dels[0]] + c.dels[1..];
  }

  /* ------------------------------------------------------------------ every move keeps what is written right */

  /** The lists only grow. */
  ghost predicate Longer(x: Index, x': Index) {
    forall a | a in x.lists :: a in x'.lists && x.lists[a] <= x'.lists[a]
  }

  lemma WriterStays(x: Index, x': Index, k: CallId)
    requires WriterOk(x, k) && Longer(x, x') && k in x'.writers && x'.writers[k].Mirroring? && k in x'.version && x'.version[k] == x.version[k]
    requires var c, c' := x.writers[k], x'.writers[k]; c'.agent == c.agent && (forall s | s in c'.adds :: s in c.adds) && (forall s | s in c'.dels :: s in c.dels)
    ensures WriterOk(x', k)
  {
  }

  lemma RowStays(x: Index, x': Index, s: string)
    requires PointerOk(x, s) && Longer(x, x')
    requires (s in x.wrote <==> s in x'.wrote) && (s in x.wrote ==> x'.wrote[s] == x.wrote[s])
    requires (s in x.bindings <==> s in x'.bindings) && (s in x.bindings ==> x'.bindings[s] == x.bindings[s])
    ensures PointerOk(x', s)
  {
  }

  lemma EnrolledWrites(x: Index, k: CallId, a: string, after: seq<string>, s: Option<string>, displaced: Option<string>)
    requires WritesOk(x) && k !in x.writers
    ensures WritesOk(Enrolled(x, k, a, after, s, displaced))
  {
    hide PointerOk;
    var x' := Enrolled(x, k, a, after, s, displaced);
    MinusIs(after, Before(x, a));
    MinusIs(Before(x, a), after);
    forall b | b in x'.now ensures ListsOk(x', b) { if b != a { assert ListsOk(x, b); } }
    forall j | j in x'.writers ensures WriterOk(x', j) { if j != k { assert WriterOk(x, j); WriterStays(x, x', j); } }
    forall y ensures PointerOk(x', y) { assert PointerOk(x, y); RowStays(x, x', y); }
  }

  lemma WrittenWrites(x: Index, k: CallId)
    requires WritesOk(x) && k in x.writers && WriterOk(x, k) && (x.writers[k].adds != [] || x.writers[k].dels != [])
    ensures WritesOk(Written(x, k, x.writers[k]))
  {
    hide PointerOk;
    var c := x.writers[k];
    var x' := Written(x, k, c);
    LessIs(c);
    forall b | b in x'.now ensures ListsOk(x', b) { assert ListsOk(x, b); }
    forall j | j in x'.writers ensures WriterOk(x', j) { assert WriterOk(x, j); WriterStays(x, x', j); }
    forall y ensures PointerOk(x', y) { assert PointerOk(x, y); if y == Next(c) { JustWritten(x, k); } else { RowStays(x, x', y); } }
  }

  lemma JustWritten(x: Index, k: CallId)
    requires WriterOk(x, k) && (x.writers[k].adds != [] || x.writers[k].dels != [])
    ensures PointerOk(Written(x, k, x.writers[k]), Next(x.writers[k]))
  {
  }

  /** Writers went on, or away, without a write. */
  lemma UnwrittenWrites(x: Index, x': Index)
    requires WritesOk(x) && x'.now == x.now && x'.lists == x.lists && x'.bindings == x.bindings && x'.wrote == x.wrote && x'.version == x.version
    requires forall j | j in x'.writers :: j in x.writers && x'.writers[j].Mirroring? && x.writers[j].Mirroring? && var c, c' := x.writers[j], x'.writers[j];
               c'.agent == c.agent && (forall s | s in c'.adds :: s in c.adds) && (forall s | s in c'.dels :: s in c.dels)
    ensures WritesOk(x')
  {
    hide PointerOk;
    forall b | b in x'.now ensures ListsOk(x', b) { assert ListsOk(x, b); }
    forall j | j in x'.writers ensures WriterOk(x', j) { assert WriterOk(x, j); WriterStays(x, x', j); }
    forall y ensures PointerOk(x', y) { assert PointerOk(x, y); RowStays(x, x', y); }
  }

  /* ------------------------------------------------------------------ every move keeps what is clear */

  lemma OwingIs(writers: map<CallId, Call>, k: CallId, a: string, s: string)
    requires k in writers && Owes(writers[k], a, s)
    ensures Owing(writers, a, s)
  {
  }

  /** For this agent and session nothing changed that matters. */
  lemma StaysClear(x: Index, x': Index, a: string, s: string)
    requires Clear(x, a, s) && (Bound(x, a, s) <==> Bound(x', a, s)) && (Listed(x, a, s) <==> Listed(x', a, s))
    requires forall k | k in x'.writers && Owes(x'.writers[k], a, s) :: k in x.writers && Owes(x.writers[k], a, s) && (s in x.writers[k].adds <==> s in x'.writers[k].adds)
    requires forall k | k in x.writers && Owes(x.writers[k], a, s) :: k in x'.writers && Owes(x'.writers[k], a, s)
    ensures Clear(x', a, s)
  {
    if Owing(x.writers, a, s) {
      var k :| k in x.writers && Owes(x.writers[k], a, s);
      OwingIs(x'.writers, k, a, s);
    }
    if Owing(x'.writers, a, s) {
      var k :| k in x'.writers && Owes(x'.writers[k], a, s);
      OwingIs(x.writers, k, a, s);
    }
  }

  /** Nobody owes the row, and it is right. */
  lemma PlainlyClear(x: Index, a: string, s: string)
    requires (forall k | k in x.writers :: !Owes(x.writers[k], a, s)) && (Bound(x, a, s) <==> Listed(x, a, s))
    ensures Clear(x, a, s)
  {
  }

  lemma EnrolledUsed(x: Index, k: CallId, a: string, after: seq<string>, s: Option<string>, displaced: Option<string>)
    requires ClearOk(x) && k !in x.writers && NoDuplicates(after) && NoDuplicates(Before(x, a))
    requires forall y | y in after :: y in Before(x, a) || s == Some(y)
    ensures var x' := Enrolled(x, k, a, after, s, displaced); (forall j | j in x'.writers :: WriterTidy(x', j)) && forall y :: SessionUsed(x', y)
  {
    hide Clear, Owing;
    var x' := Enrolled(x, k, a, after, s, displaced);
    MinusIs(after, Before(x, a));
    MinusIs(Before(x, a), after);
    forall y ensures SessionUsed(x', y) { assert SessionUsed(x, y); }
    forall j | j in x'.writers ensures WriterTidy(x', j) {
      if j != k { assert WriterTidy(x, j); } else {
        forall y | y !in x'.mixed && (y in x'.writers[k].adds || y in x'.writers[k].dels) ensures UsedBy(x', y, a) { assert SessionUsed(x, y) && SessionUsed(x', y); }
      }
    }
  }

  lemma EnrolledClear(x: Index, k: CallId, a: string, after: seq<string>, s: Option<string>, displaced: Option<string>, b: string, y: string)
    requires WritesOk(x) && ClearOk(x) && k !in x.writers
    requires var x' := Enrolled(x, k, a, after, s, displaced); Settleable(x', b, y)
    ensures Clear(Enrolled(x, k, a, after, s, displaced), b, y)
  {
    hide SessionUsed, WriterTidy, ListsOk, Shows;
    var x' := Enrolled(x, k, a, after, s, displaced);
    MinusIs(after, Before(x, a));
    MinusIs(Before(x, a), after);
    if b !in x.now { NothingYet(x, b, y); } else { assert Settleable(x, b, y) && Clear(x, b, y); }
    if b == a && (y in x'.writers[k].adds || y in x'.writers[k].dels) {
      assert Owing(x.writers, a, y) ==> (a, y) in x'.lapsed;
      forall j | j in x'.writers && Owes(x'.writers[j], b, y) ensures j == k { if j != k { OwingIs(x.writers, j, a, y); } }
      OwingIs(x'.writers, k, b, y);
    } else {
      assert !Owes(x'.writers[k], b, y);
      StaysClear(x, x', b, y);
    }
  }

  /** Of an agent that is not there yet nothing is bound, listed or owed. */
  lemma NothingYet(x: Index, b: string, y: string)
    requires WritesOk(x) && b !in x.now
    ensures Clear(x, b, y) && !Bound(x, b, y) && !Owing(x.writers, b, y)
  {
    assert PointerOk(x, y);
    forall j | j in x.writers ensures !Owes(x.writers[j], b, y) { assert WriterOk(x, j); }
  }

  lemma EnrolledOk(x: Index, k: CallId, a: string, after: seq<string>, s: Option<string>, displaced: Option<string>)
    requires WritesOk(x) && ClearOk(x) && k !in x.writers && NoDuplicates(after) && NoDuplicates(Before(x, a))
    requires forall y | y in after :: y in Before(x, a) || s == Some(y)
    ensures WritesOk(Enrolled(x, k, a, after, s, displaced)) && ClearOk(Enrolled(x, k, a, after, s, displaced))
  {
    hide Clear, WriterTidy, SessionUsed, WritesOk, Enrolled, Settleable;
    var x' := Enrolled(x, k, a, after, s, displaced);
    EnrolledWrites(x, k, a, after, s, displaced);
    EnrolledUsed(x, k, a, after, s, displaced);
    forall b, y | Settleable(x', b, y) ensures Clear(x', b, y) { EnrolledClear(x, k, a, after, s, displaced, b, y); }
  }

  lemma RefilledOk(x: Index, k: CallId, a: string, s: string)
    requires WritesOk(x) && ClearOk(x) && k !in x.writers && a in x.now && s in x.now[a]
    ensures WritesOk(Refilled(x, k, a, s)) && ClearOk(Refilled(x, k, a, s))
  {
    hide Clear, PointerOk, SessionUsed;
    var x' := Refilled(x, k, a, s);
    assert ListsOk(x, a);
    forall b | b in x'.now ensures ListsOk(x', b) { assert ListsOk(x, b); }
    forall j | j in x'.writers ensures WriterOk(x', j) { if j != k { assert WriterOk(x, j); WriterStays(x, x', j); } }
    forall y ensures PointerOk(x', y) { assert PointerOk(x, y); RowStays(x, x', y); }
    RefilledClear(x, k, a, s);
  }

  lemma RefilledClear(x: Index, k: CallId, a: string, s: string)
    requires ClearOk(x) && k !in x.writers && a in x.now && s in x.now[a]
    ensures ClearOk(Refilled(x, k, a, s))
  {
    hide Clear;
    var x' := Refilled(x, k, a, s);
    forall y ensures SessionUsed(x', y) { assert SessionUsed(x, y); }
    forall j | j in x'.writers ensures WriterTidy(x', j) { if j != k { assert WriterTidy(x, j); } else { assert SessionUsed(x, s); } }
    forall b, y | Settleable(x', b, y) ensures Clear(x', b, y) {
      assert Settleable(x, b, y) && Clear(x, b, y);
      if (b, y) == (a, s) { NewOwesClear(x, x', k, a, s); } else { StaysClear(x, x', b, y); }
    }
  }

  lemma NewOwesClear(x: Index, x': Index, k: CallId, a: string, s: string)
    requires Clear(x, a, s) && k !in x.writers && Listed(x, a, s) && x' == Refilled(x, k, a, s)
    ensures Clear(x', a, s)
  {
    OwingIs(x'.writers, k, a, s);
  }

  lemma WrittenUsed(x: Index, k: CallId)
    requires ClearOk(x) && k in x.writers && WriterTidy(x, k) && k in x.version && (x.writers[k].adds != [] || x.writers[k].dels != [])
    ensures var x' := Written(x, k, x.writers[k]); (forall j | j in x'.writers :: WriterTidy(x', j)) && forall y :: SessionUsed(x', y)
  {
    hide Clear, Owing;
    var x' := Written(x, k, x.writers[k]);
    LessIs(x.writers[k]);
    forall y ensures SessionUsed(x', y) { assert SessionUsed(x, y); }
    forall j | j in x'.writers ensures WriterTidy(x', j) { assert WriterTidy(x, j); }
  }

  lemma WrittenClear(x: Index, k: CallId, b: string, y: string)
    requires ClearOk(x) && k in x.writers && WriterTidy(x, k) && k in x.version && (x.writers[k].adds != [] || x.writers[k].dels != [])
    requires Settleable(x, b, y)
    ensures Clear(Written(x, k, x.writers[k]), b, y)
  {
    var c := x.writers[k];
    var x' := Written(x, k, c);
    LessIs(c);
    assert Clear(x, b, y);
    if y != Next(c) {
      StaysClear(x, x', b, y);
    } else if b == c.agent {
      assert Owes(c, b, y);
      RightlyClear(x, x', k, y);
    } else {
      OnlyOneUser(x, k, b, y);
      PlainlyClear(x', b, y);
    }
  }

  /** The row was written as the list has it; others may still write the same. */
  lemma RightlyClear(x: Index, x': Index, k: CallId, y: string)
    requires k in x.writers && x.writers[k].Mirroring? && var a := x.writers[k].agent; Clear(x, a, y) && Owes(x.writers[k], a, y)
    requires var a := x.writers[k].agent; (Bound(x', a, y) <==> y in x.writers[k].adds) && (Listed(x', a, y) <==> Listed(x, a, y))
    requires forall j | j in x'.writers && j != k :: j in x.writers && x'.writers[j] == x.writers[j]
    requires k in x'.writers ==> !Owes(x'.writers[k], x.writers[k].agent, y)
    ensures Clear(x', x.writers[k].agent, y)
  {
  }

  /** A session used with one agent is no business of another's. */
  lemma OnlyOneUser(x: Index, k: CallId, b: string, y: string)
    requires ClearOk(x) && k in x.writers && y !in x.mixed && b != x.writers[k].agent && Owes(x.writers[k], x.writers[k].agent, y)
    ensures !Bound(x, b, y) && !Listed(x, b, y) && forall j | j in x.writers :: !Owes(x.writers[j], b, y)
  {
    hide Clear;
    assert WriterTidy(x, k) && SessionUsed(x, y);
    forall j | j in x.writers ensures !Owes(x.writers[j], b, y) { assert WriterTidy(x, j); }
  }

  lemma WrittenOk(x: Index, k: CallId)
    requires WritesOk(x) && ClearOk(x) && k in x.writers && x.writers[k].Mirroring? && (x.writers[k].adds != [] || x.writers[k].dels != [])
    ensures k in x.version && WritesOk(Written(x, k, x.writers[k])) && ClearOk(Written(x, k, x.writers[k]))
  {
    hide Clear, SessionUsed, Owing, Less, Next;
    assert WriterOk(x, k) && WriterTidy(x, k);
    WrittenWrites(x, k);
    WrittenUsed(x, k);
    var x' := Written(x, k, x.writers[k]);
    forall b, y | Settleable(x', b, y) ensures Clear(x', b, y) { assert Settleable(x, b, y); WrittenClear(x, k, b, y); }
  }

  /** Writers went on, or away, without a write, and what they then no longer owe is put down as lapsed. */
  lemma UnwrittenOk(x: Index, x': Index)
    requires WritesOk(x) && ClearOk(x) && x' == x.(writers := x'.writers, lapsed := x'.lapsed) && x.lapsed <= x'.lapsed
    requires forall j | j in x'.writers :: j in x.writers && x'.writers[j].Mirroring? && x.writers[j].Mirroring? && var c, c' := x.writers[j], x'.writers[j];
               c'.agent == c.agent && (forall s | s in c'.adds :: s in c.adds) && (forall s | s in c'.dels :: s in c.dels) && NoDuplicates(c'.adds) && NoDuplicates(c'.dels)
    requires forall j, b, y {:trigger Owes(x.writers[j], b, y)} | j in x.writers && Owes(x.writers[j], b, y) && (b, y) !in x'.lapsed :: j in x'.writers && Owes(x'.writers[j], b, y)
    ensures WritesOk(x') && ClearOk(x')
  {
    hide Clear, Owing;
    forall j | j in x'.writers ensures WriterTidy(x', j) && x.writers[j].Mirroring? { assert WriterTidy(x, j); }
    UnwrittenWrites(x, x');
    forall y ensures SessionUsed(x', y) { assert SessionUsed(x, y); }
    forall b, y | Settleable(x', b, y) ensures Clear(x', b, y) {
      assert Settleable(x, b, y) && Clear(x, b, y);
      forall j | j in x'.writers && Owes(x'.writers[j], b, y) ensures Owes(x.writers[j], b, y) && (y in x.writers[j].adds <==> y in x'.writers[j].adds) {
        assert WriterTidy(x, j);
      }
      StaysClear(x, x', b, y);
    }
  }

  lemma SkippedOk(x: Index, k: CallId)
    requires WritesOk(x) && ClearOk(x) && k in x.writers && x.writers[k].Mirroring? && (x.writers[k].adds != [] || x.writers[k].dels != [])
    ensures WritesOk(Skipped(x, k, x.writers[k])) && ClearOk(Skipped(x, k, x.writers[k]))
  {
    hide Clear, SessionUsed, PointerOk, ListsOk, WriterOk;
    LessIs(x.writers[k]);
    forall j | j in x.writers ensures WriterTidy(x, j) {}
    UnwrittenOk(x, Skipped(x, k, x.writers[k]));
  }

  lemma GoneOk(x: Index, k: CallId)
    requires WritesOk(x) && ClearOk(x) && k in x.writers && x.writers[k].Mirroring?
    ensures WritesOk(Gone(x, k, x.writers[k])) && ClearOk(Gone(x, k, x.writers[k]))
  {
    hide Clear, SessionUsed, PointerOk, ListsOk, WriterOk;
    forall j | j in x.writers ensures WriterTidy(x, j) {}
    UnwrittenOk(x, Gone(x, k, x.writers[k]));
  }

  lemma RestartedOk(x: Index)
    requires WritesOk(x) && ClearOk(x)
    ensures WritesOk(Restarted(x)) && ClearOk(Restarted(x))
  {
    hide Clear, SessionUsed, PointerOk, ListsOk, WriterOk;
    forall j | j in x.writers ensures WriterTidy(x, j) {}
    UnwrittenOk(x, Restarted(x));
  }
  /* ------------------------------------------------------------------ every step moves the index so */

  lemma WritersMove(calls: map<CallId, Call>, k: CallId, c: Call)
    ensures c.Mirroring? ==> Writers(calls[k := c]) == Writers(calls)[k := c]
    ensures !c.Mirroring? && (k in calls ==> !calls[k].Mirroring?) ==> Writers(calls[k := c]) == Writers(calls)
    ensures Writers(calls - {k}) == Writers(calls) - {k}
    ensures (k in calls ==> !calls[k].Mirroring?) ==> Writers(calls - {k}) == Writers(calls)
  {
  }

  lemma ListsMove(agents: Table<Agent>, a: string, v: Versioned<Agent>)
    ensures Lists(agents[a := v]) == Lists(agents)[a := v.row.registered]
    ensures a in agents && agents[a].row.registered == v.row.registered ==> Lists(agents[a := v]) == Lists(agents)
  {
  }

  /** The part of the history the index looks at. */
  ghost predicate SameIndexPast(p: Past, q: Past) {
    q.lists == p.lists && q.version == p.version && q.wrote == p.wrote && q.lapsed == p.lapsed && q.users == p.users && q.mixed == p.mixed
  }

  /** A call came, moved on or ended that writes no pointer rows. */
  lemma PlainCallKeepsIndex(w: World, w': World, k: CallId, c: Call)
    requires w'.agents == w.agents && w'.bindings == w.bindings && SameIndexPast(w.past, w'.past)
    requires w'.calls == w.calls || ((k in w.calls ==> !w.calls[k].Mirroring?) && !c.Mirroring? && (w'.calls == w.calls[k := c] || w'.calls == w.calls - {k}))
    ensures IndexOf(w') == IndexOf(w)
  {
    hide Lists, Writers;
    WritersMove(w.calls, k, c);
  }

  lemma BeginKeepsIndex(w: World, k: CallId, a: string, op: Op)
    requires k !in w.calls
    ensures IndexOf(DoBegin(w, k, a, op)) == IndexOf(w)
  {
    hide IndexOf;
    PlainCallKeepsIndex(w, DoBegin(w, k, a, op), k, Ready(a, op, 0));
  }

  lemma RefillIndex(w: World, k: CallId, a: string, s: string)
    requires k !in w.calls && DoRefill(w, k, a, s) != w
    ensures IndexOf(DoRefill(w, k, a, s)) == Refilled(IndexOf(w), k, a, s)
  {
    hide Writers;
    WritersMove(w.calls, k, Mirroring(a, [s], [], None, None));
  }

  lemma IndexRefill(w: World, k: CallId, a: string, s: string)
    requires IndexOk(IndexOf(w)) && k !in w.calls
    ensures IndexOk(IndexOf(DoRefill(w, k, a, s)))
  {
    hide WritesOk, ClearOk, Refilled;
    if DoRefill(w, k, a, s) != w {
      RefillIndex(w, k, a, s);
      RefilledOk(IndexOf(w), k, a, s);
    }
  }

  lemma LookUpKeepsIndex(w: World, k: CallId, s: string)
    requires k !in w.calls
    ensures IndexOf(DoLookUp(w, k, s)) == IndexOf(w)
  {
    hide IndexOf;
    PlainCallKeepsIndex(w, DoLookUp(w, k, s), k, Found(s, if s in w.bindings then w.bindings[s] else ""));
  }

  lemma RehydrateKeepsIndex(w: World, k: CallId)
    ensures IndexOf(DoRehydrate(w, k)) == IndexOf(w)
  {
    hide IndexOf;
    PlainCallKeepsIndex(w, DoRehydrate(w, k), k, Found("", ""));
  }

  lemma AttemptKeepsIndex(w: World, a: string, now: int)
    ensures IndexOf(Attempted(w, a, now)) == IndexOf(w) && Attempted(w, a, now).calls == w.calls && a in Attempted(w, a, now).windows
  {
  }

  lemma PlainCallsKeepIndex(w: World, k: CallId, c: Call)
    requires k in w.calls && !w.calls[k].Mirroring? && !c.Mirroring?
    ensures IndexOf(Done(w, k)) == IndexOf(w) && IndexOf(At(w, k, c)) == IndexOf(w)
  {
    hide Lists, Writers;
    WritersMove(w.calls, k, c);
  }

  lemma LoadKeepsIndex(w: World, k: CallId, now: int)
    ensures IndexOf(DoLoad(w, k, now)) == IndexOf(w)
  {
    if k in w.calls && w.calls[k].Ready? && w.calls[k].agent in w.agents {
      hide IndexOf, Lookup, Attempted, Applies, At, Done;
      var c := w.calls[k];
      var u := Attempted(w, c.agent, now);
      AttemptKeepsIndex(w, c.agent, now);
      PlainCallsKeepIndex(u, k, Loaded(c.agent, c.op, c.tries, w.agents[c.agent], now, Some(|Lookup(w.past.attempts, c.agent)|)));
      PlainCallsKeepIndex(w, k, Loaded(c.agent, c.op, c.tries, w.agents[c.agent], now, None));
    } else if k in w.calls && w.calls[k].Ready? {
      PlainCallsKeepIndex(w, k, Found("", ""));
    }
  }

  lemma LostCommitKeepsIndex(w: World, k: CallId)
    requires !Wins(w, k)
    ensures IndexOf(DoCommit(w, k)) == IndexOf(w)
  {
    if k in w.calls && w.calls[k].Loaded? {
      hide IndexOf, Apply, At, Done;
      var c := w.calls[k];
      PlainCallsKeepIndex(w, k, Ready(c.agent, c.op, c.tries + 1));
    }
  }

  lemma PlainCommitKeepsIndex(w: World, k: CallId)
    requires Wins(w, k) && !Registers(w.calls[k].op) && w.agents[w.calls[k].agent] == w.calls[k].seen
    ensures IndexOf(DoCommit(w, k)) == IndexOf(w)
  {
    hide Lists, Writers, Apply;
    var c := w.calls[k];
    ApplyRegisters(c.seen.row, c.op, c.now);
    WritersMove(w.calls, k, Found("", ""));
    ListsMove(w.agents, c.agent, Versioned(Apply(c.seen.row, c.op, c.now), w.rev + 1));
  }

  /** The index right after the row of `a` was written, its writer in place. */
  lemma EnrolIndex(w: World, u: World, k: CallId, a: string, v: Versioned<Agent>, s: Option<string>, displaced: Option<string>)
    requires u.agents == w.agents[a := v]
    requires u.bindings == w.bindings && u.calls == w.calls
    requires SameIndexPast(w.past, u.past)
    ensures IndexOf(Enrol(u, k, a, if a in w.agents then w.agents[a].row.registered else [], v.row.registered, s, displaced))
            == Enrolled(IndexOf(w), k, a, v.row.registered, s, displaced)
  {
    hide Writers, Minus, Owing;
    var before := if a in w.agents then w.agents[a].row.registered else [];
    ListsMove(w.agents, a, v);
    LapsesAgree(w.calls, a, Minus(v.row.registered, before) + Minus(before, v.row.registered));
    WritersMove(w.calls, k, Mirroring(a, Minus(v.row.registered, before), Minus(before, v.row.registered), s, displaced));
  }

  lemma LapsesAgree(calls: map<CallId, Call>, a: string, changed: seq<string>)
    ensures (set y | y in changed && Owing(Writers(calls), a, y) :: (a, y)) == (set y | y in changed && Owing(calls, a, y) :: (a, y))
  {
    hide Writers, Owing;
    forall y ensures Owing(Writers(calls), a, y) <==> Owing(calls, a, y) { WritersOwe(calls, a, y); }
  }

  lemma CreateIndex(w: World, k: CallId, a: string, session: Option<string>, now: int)
    requires k !in w.calls && a !in w.agents
    ensures IndexOf(DoCreate(w, k, a, session, now))
            == Enrolled(IndexOf(w), k, a, Newborn(session, now).registered, if Names(session) then session else None, None)
  {
    hide IndexOf, Enrol, Enrolled;
    var born := Newborn(session, now);
    var u := w.(agents := w.agents[a := Versioned(born, w.rev + 1)], rev := w.rev + 1,
                past := w.past.(first := w.past.first[a := born], hist := w.past.hist[a := []]));
    EnrolIndex(w, u, k, a, Versioned(born, w.rev + 1), if Names(session) then session else None, None);
  }

  lemma CommitIndex(w: World, k: CallId)
    requires Wins(w, k) && Registers(w.calls[k].op) && w.agents[w.calls[k].agent] == w.calls[k].seen
    ensures var c := w.calls[k]; exists d ::
              IndexOf(DoCommit(w, k)) == Enrolled(IndexOf(w), k, c.agent, Apply(c.seen.row, c.op, c.now).registered, Enrolee(c.op), d)
  {
    hide IndexOf, Enrol, Enrolled, Apply, Displaced, Enrolee, Accept;
    var c := w.calls[k];
    var next := Apply(c.seen.row, c.op, c.now);
    var past := w.past.(hist := w.past.hist[c.agent := Lookup(w.past.hist, c.agent) + [Event(c.op, c.now, c.seen.row, next)]]);
    AcceptKeeps(past, c.agent, c.ticket);
    var u := w.(agents := w.agents[c.agent := Versioned(next, w.rev + 1)], rev := w.rev + 1, past := Accept(past, c.agent, c.ticket));
    var d := if c.op.Claim? then Displaced(c.seen.row, c.op.session) else None;
    EnrolIndex(w, u, k, c.agent, Versioned(next, w.rev + 1), Enrolee(c.op), if d.Some? then Some(d.value.0) else None);
  }

  /** The index after one pointer write, whichever it was. */
  lemma MovedIndex(w: World, w': World, k: CallId, d: Call)
    requires w'.agents == w.agents && w'.calls == w.calls[k := d] && d.Mirroring?
    requires w'.past == w.past.(wrote := w'.past.wrote, lapsed := w'.past.lapsed)
    ensures IndexOf(w') == IndexOf(w).(bindings := w'.bindings, writers := Writers(w.calls)[k := d], wrote := w'.past.wrote, lapsed := w'.past.lapsed)
  {
    hide Lists, Writers;
    WritersMove(w.calls, k, d);
  }

  lemma MarkedIs(p: Past, k: CallId, a: string, s: string, ok: bool)
    requires k in p.version
    ensures var q := Marked(p, k, a, s, ok);
            && q == p.(wrote := q.wrote, lapsed := q.lapsed)
            && q.wrote == (if ok then p.wrote[s := (a, p.version[k])] else p.wrote) && q.lapsed == (if ok then p.lapsed else p.lapsed + {(a, s)})
  {
  }

  lemma MirrorWriteIndex(w: World, k: CallId, ok: bool)
    requires k in w.calls && w.calls[k].Mirroring? && (w.calls[k].adds != [] || w.calls[k].dels != []) && k in w.past.version
    ensures var c := w.calls[k]; var x, x' := IndexOf(w), IndexOf(DoMirror(w, k, ok)); x' == if ok then Written(x, k, c) else Skipped(x, k, c)
  {
    hide Lists, Writers, AddPointer, DropPointer, Marked;
    var c := w.calls[k];
    MarkedIs(w.past, k, c.agent, Next(c), ok);
    if c.adds != [] { AddDoes(w, k, c, ok); } else { DropDoes(w, k, c, ok); }
    hide DoMirror, IndexOf;
    MovedIndex(w, DoMirror(w, k, ok), k, Less(c));
    IndexParts(w);
  }

  lemma IndexParts(w: World)
    ensures var x := IndexOf(w); x.bindings == w.bindings && x.version == w.past.version && x.wrote == w.past.wrote && x.lapsed == w.past.lapsed && x.writers == Writers(w.calls)
  {
  }

  lemma MirrorEndIndex(w: World, k: CallId, ok: bool)
    requires k in w.calls && w.calls[k].Mirroring? && w.calls[k].adds == [] && w.calls[k].dels == []
    ensures IndexOf(DoMirror(w, k, ok)) == Gone(IndexOf(w), k, w.calls[k])
  {
    hide Lists, Writers;
    WritersMove(w.calls, k, Found("", ""));
    assert (set s | s in w.calls[k].adds + w.calls[k].dels :: (w.calls[k].agent, s)) == {};
  }

  lemma MirrorIndex(w: World, k: CallId, ok: bool)
    requires k in w.calls && w.calls[k].Mirroring? && k in w.past.version
    ensures var c := w.calls[k]; var x, x' := IndexOf(w), IndexOf(DoMirror(w, k, ok));
            && k in x.writers && x.writers[k] == c
            && x' == if c.adds == [] && c.dels == [] then Gone(x, k, c) else if ok then Written(x, k, c) else Skipped(x, k, c)
  {
    assert k in IndexOf(w).writers && IndexOf(w).writers[k] == w.calls[k];
    hide IndexOf, DoMirror;
    if w.calls[k].adds == [] && w.calls[k].dels == [] { MirrorEndIndex(w, k, ok); } else { MirrorWriteIndex(w, k, ok); }
  }

  lemma AbandonIndex(w: World, k: CallId)
    ensures IndexOf(DoAbandon(w, k)) == if k in w.calls && w.calls[k].Mirroring? then Gone(IndexOf(w), k, w.calls[k]) else IndexOf(w)
  {
    hide Lists, Writers;
    WritersMove(w.calls, k, Found("", ""));
  }

  lemma RestartIndex(w: World)
    ensures IndexOf(DoRestart(w)) == Restarted(IndexOf(w))
  {
    hide Lists;
    assert Writers(map[]) == map[];
    AllOwedIs(w.calls);
  }

  lemma AllOwedIs(calls: map<CallId, Call>)
    ensures AllOwed(Writers(calls)) == AllOwed(calls)
  {
    var x := Writers(calls);
    forall p | p in AllOwed(calls) ensures p in AllOwed(x) {
      var k, s :| k in calls && calls[k].Mirroring? && s in calls[k].adds + calls[k].dels && p == (calls[k].agent, s);
      assert k in x && s in x[k].adds + x[k].dels;
    }
    forall p | p in AllOwed(x) ensures p in AllOwed(calls) {
      var k, s :| k in x && x[k].Mirroring? && s in x[k].adds + x[k].dels && p == (x[k].agent, s);
      assert k in calls && s in calls[k].adds + calls[k].dels;
    }
  }

  lemma WritersOwe(calls: map<CallId, Call>, a: string, s: string)
    ensures Owing(Writers(calls), a, s) <==> Owing(calls, a, s)
  {
    if Owing(calls, a, s) {
      var k :| k in calls && Owes(calls[k], a, s);
      assert k in Writers(calls) && Owes(Writers(calls)[k], a, s);
    }
    if Owing(Writers(calls), a, s) {
      var k :| k in Writers(calls) && Owes(Writers(calls)[k], a, s);
      assert k in calls && Owes(calls[k], a, s);
    }
  }

  /* ------------------------------------------------------------------ over every run */

  lemma IndexCreate(w: World, k: CallId, a: string, session: Option<string>, now: int)
    requires IndexOk(IndexOf(w)) && k !in w.calls && a !in w.agents
    ensures IndexOk(IndexOf(DoCreate(w, k, a, session, now)))
  {
    hide WritesOk, ClearOk, Enrolled, DoCreate;
    CreateIndex(w, k, a, session, now);
    EnrolledOk(IndexOf(w), k, a, Newborn(session, now).registered, if Names(session) then session else None, None);
  }

  lemma ListsTidy(w: World, a: string)
    requires RowsOk(w) && a in w.agents
    ensures TidyList(w.agents[a].row.registered)
  {
    assert RowOk(w, a);
    RegisteredStaysTidy(w.past.first[a], w.past.hist[a], w.agents[a].row);
  }

  lemma RegistrationAdds(a: Agent, op: Op, now: int)
    requires TidyList(a.registered)
    ensures var after := Apply(a, op, now).registered; NoDuplicates(after) && forall y | y in after :: y in a.registered || Enrolee(op) == Some(y)
  {
    hide Apply, Append;
    ApplyRegisters(a, op, now);
    ApplyTidy(a, op, now);
    if op.Assert? && Names(op.binding) { AppendKeeps(a.registered, op.binding.value); }
    if op.Claim? {
      RevokedTidy(a, op.session);
      AppendKeeps(Revoked(a, op.session), op.session);
    }
  }

  lemma IndexCommit(w: World, k: CallId)
    requires RowsOk(w) && IndexOk(IndexOf(w)) && k in w.calls && w.calls[k].Loaded?
    ensures IndexOk(IndexOf(DoCommit(w, k)))
  {
    hide WritesOk, ClearOk, Enrolled, DoCommit, Apply, RowsOk, Enrolee;
    var c := w.calls[k];
    if !Wins(w, k) {
      LostCommitKeepsIndex(w, k);
    } else {
      CommitKnows(w, k);
      if !Registers(c.op) {
        PlainCommitKeepsIndex(w, k);
      } else {
        CommitIndex(w, k);
        var after := Apply(c.seen.row, c.op, c.now).registered;
        var d :| IndexOf(DoCommit(w, k)) == Enrolled(IndexOf(w), k, c.agent, after, Enrolee(c.op), d);
        ListsTidy(w, c.agent);
        RegistrationAdds(c.seen.row, c.op, c.now);
        EnrolledOk(IndexOf(w), k, c.agent, after, Enrolee(c.op), d);
      }
    }
  }

  lemma HasVersion(w: World, k: CallId)
    requires IndexOk(IndexOf(w)) && k in w.calls && w.calls[k].Mirroring?
    ensures k in w.past.version
  {
    assert k in IndexOf(w).writers && WriterOk(IndexOf(w), k);
  }

  lemma IndexMirror(w: World, k: CallId, ok: bool)
    requires IndexOk(IndexOf(w)) && k in w.calls && w.calls[k].Mirroring?
    ensures IndexOk(IndexOf(DoMirror(w, k, ok)))
  {
    hide WritesOk, ClearOk, IndexOf, DoMirror;
    HasVersion(w, k);
    MirrorIndex(w, k, ok);
    var c := w.calls[k];
    if c.adds == [] && c.dels == [] { GoneOk(IndexOf(w), k); }
    else if ok { WrittenOk(IndexOf(w), k); }
    else { SkippedOk(IndexOf(w), k); }
  }

  lemma IndexAbandon(w: World, k: CallId)
    requires IndexOk(IndexOf(w))
    ensures IndexOk(IndexOf(DoAbandon(w, k)))
  {
    hide WritesOk, ClearOk, DoAbandon;
    AbandonIndex(w, k);
    if k in w.calls && w.calls[k].Mirroring? { GoneOk(IndexOf(w), k); }
  }

  lemma StepIndex(w: World, s: Step)
    requires RowsOk(w) && IndexOk(IndexOf(w))
    ensures IndexOk(IndexOf(Do(w, s)))
  {
    hide IndexOk, IndexOf, RowsOk, DoLoad, DoCommit, DoMirror, DoAbandon, DoRestart;
    match s
    case Create(k, a, binding, now) => if k !in w.calls && a !in w.agents { IndexCreate(w, k, a, binding, now); }
    case Load(k, now) => LoadKeepsIndex(w, k, now);
    case Commit(k) => if k in w.calls && w.calls[k].Loaded? { IndexCommit(w, k); } else { LostCommitKeepsIndex(w, k); }
    case Mirror(k, ok) => if k in w.calls && w.calls[k].Mirroring? { IndexMirror(w, k, ok); } else { NoMirror(w, k, ok); }
    case Abandon(k) => IndexAbandon(w, k);
    case Restart(_) => RestartIndex(w); IndexRestart(w);
    case Begin(k, a, op) => if k !in w.calls { BeginKeepsIndex(w, k, a, op); }
    case Refill(k, a, session) => if k !in w.calls { IndexRefill(w, k, a, session); }
    case LookUp(k, session) => if k !in w.calls { LookUpKeepsIndex(w, k, session); }
    case Rehydrate(k) => RehydrateKeepsIndex(w, k);
    case Forget(k, _) => PlainCallKeepsIndex(w, Do(w, s), k, Found("", ""));
  }

  lemma IndexRestart(w: World)
    requires IndexOk(IndexOf(w))
    ensures IndexOk(Restarted(IndexOf(w)))
  {
    RestartedOk(IndexOf(w));
  }

  lemma NoMirror(w: World, k: CallId, ok: bool)
    requires !(k in w.calls && w.calls[k].Mirroring?)
    ensures DoMirror(w, k, ok) == w
  {
  }

  lemma {:induction false} RunIndex(w: World, steps: seq<Step>)
    requires RowsOk(w) && IndexOk(IndexOf(w))
    ensures IndexOk(IndexOf(Run(w, steps)))
    decreases |steps|
  {
    hide IndexOk, IndexOf, RowsOk, Do;
    if steps != [] {
      StepRows(w, steps[0]);
      StepIndex(w, steps[0]);
      RunIndex(Do(w, steps[0]), steps[1..]);
    }
  }

  lemma ReachedIndex(steps: seq<Step>)
    ensures RowsOk(Reached(steps)) && IndexOk(IndexOf(Reached(steps)))
  {
    RunRows(Init(), steps);
    RunIndex(Init(), steps);
  }

}
