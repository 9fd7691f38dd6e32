/** The served constitution: one row, swapped and stamped by any number of callers at once.

    Between any two of a caller's own storage operations the others may commit any moves they like
    (`others`), each a create, a swap or a stamp that the row as it stands allows.  A caller's own call is shown
    to be at most one such move, so runs of moves are all the histories there are. */
module Constitution {
  import opened Substrate

  /** The content fields, which identify what is served, and the health field. */
  datatype Snapshot = Snapshot(sha: string, manifestHash: string, body: string, syncedAt: int, createdAt: int, lastVerifiedAt: int, updatedAt: int)

  datatype Candidate = Candidate(sha: string, manifestHash: string, body: string, syncedAt: int, lastVerifiedAt: Option<int>)

  /** What the caller had seen served when it fetched: no say, nothing, or a sha. */
  datatype Fence = Unfenced | FromNothing | FromSha(sha: string)

  datatype Move =
    | Swap(candidate: Candidate, fence: Fence, now: int)
    | Stamp(sha: string, at: int)

  datatype State = State(row: Option<Versioned<Snapshot>>, rev: nat)

  function Served(s: State): Option<Snapshot> {
    if s.row.Some? then Some(s.row.value.row) else None
  }

  function FromCandidate(c: Candidate, createdAt: int, now: int): Snapshot {
    Snapshot(c.sha, c.manifestHash, c.body, c.syncedAt, createdAt, if c.lastVerifiedAt.Some? then c.lastVerifiedAt.value else c.syncedAt, now)
  }

  datatype Verdict = Commit(next: Snapshot) | Same(prior: Snapshot) | Missing | HashClash | FenceBroken | ShaMismatch | NotSynced | NoNewer | Exhausted

  /** What a move makes of the row it finds. */
  function Judge(served: Option<Snapshot>, m: Move): Verdict {
    match m
    case Swap(c, fence, now) =>
      if served.None? then if fence.FromSha? then Missing else Commit(FromCandidate(c, now, now))
      else
        var prior := served.value;
        if prior.sha == c.sha then if prior.manifestHash != c.manifestHash then HashClash else Same(prior)
        else if fence.FromNothing? || (fence.FromSha? && fence.sha != prior.sha) then FenceBroken
        else Commit(FromCandidate(c, prior.createdAt, now))
    case Stamp(sha, at) =>
      if served.None? then NotSynced
      else if served.value.sha != sha then ShaMismatch
      else if served.value.lastVerifiedAt >= at then NoNewer
      else Commit(served.value.(lastVerifiedAt := at, updatedAt := at))
  }

  function Do(s: State, m: Move): State {
    match Judge(Served(s), m)
    case Commit(next) => State(Some(Versioned(next, s.rev + 1)), s.rev + 1)
    case _ => s
  }

  function Run(s: State, moves: seq<Move>): State
    decreases |moves|
  {
    if moves == [] then s else Run(Do(s, moves[0]), moves[1..])
  }

  predicate Fresh(s: State) {
    s.row.Some? ==> s.row.value.rev <= s.rev
  }

  /** Whatever others commit: the row stays, revisions only rise, and the same revision is the same row. */
  lemma {:induction false} RunMovesOn(s: State, moves: seq<Move>)
    requires Fresh(s)
    ensures var t := Run(s, moves);
            && Fresh(t) && s.rev <= t.rev && (s.row.Some? ==> t.row.Some? && s.row.value.rev <= t.row.value.rev)
            && (s.row.Some? && t.row.value.rev == s.row.value.rev ==> t.row == s.row)
    decreases |moves|
  {
    if moves != [] { RunMovesOn(Do(s, moves[0]), moves[1..]); }
  }

  /** What each verdict says of what is served.  A swap to another sha commits exactly if it is unfenced or its fence names the
      sha served, or, with nothing served, if it expects no sha; a stamp commits exactly if its sha is served and its time is
      later than the last. */
  predicate VerdictIs(v: Verdict, served: Option<Snapshot>, m: Move) {
    match v
    case Commit(b) =>
      (match m
       case Swap(c, fence, now) =>
         && (served == None ==> fence in {Unfenced, FromNothing})
         && (served.Some? ==> served.value.sha != c.sha && fence in {Unfenced, FromSha(served.value.sha)})
         && b.sha == c.sha && b.manifestHash == c.manifestHash && b.body == c.body && b.syncedAt == c.syncedAt && b.updatedAt == now
         && b.lastVerifiedAt == (match c.lastVerifiedAt case None => c.syncedAt case Some(t) => t)
         && b.createdAt == (match served case None => now case Some(a) => a.createdAt)
       case Stamp(sha, at) =>
         served.Some? && served.value.sha == sha && served.value.lastVerifiedAt < at && b == served.value.(lastVerifiedAt := at, updatedAt := at))
    case Same(a) => m.Swap? && served == Some(a) && a.sha == m.candidate.sha && a.manifestHash == m.candidate.manifestHash
    case HashClash => m.Swap? && served.Some? && served.value.sha == m.candidate.sha && served.value.manifestHash != m.candidate.manifestHash
    case Missing => m.Swap? && served == None && m.fence !in {Unfenced, FromNothing}
    case FenceBroken => m.Swap? && served.Some? && served.value.sha != m.candidate.sha && m.fence !in {Unfenced, FromSha(served.value.sha)}
    case NotSynced => m.Stamp? && served == None
    case ShaMismatch => m.Stamp? && served.Some? && served.value.sha != m.sha
    case NoNewer => m.Stamp? && served.Some? && served.value.sha == m.sha && served.value.lastVerifiedAt >= m.at
    case Exhausted => false
  }

  lemma JudgeMeans(served: Option<Snapshot>, m: Move)
    ensures VerdictIs(Judge(served, m), served, m)
  {
  }

  const MAX_RETRIES := 20

  class ConstitutionStore {
    const others: nat -> seq<Move>
    var state: State
    var gaps: nat

    predicate Valid()
      reads this
    {
      Fresh(state)
    }

    constructor (others: nat -> seq<Move>)
      ensures Valid() && state == State(None, 0) && this.others == others
    {
      this.others := others;
      state, gaps := State(None, 0), 0;
    }

    method Gap()
      requires Valid()
      modifies this
      ensures Valid() && state == Run(old(state), others(old(gaps))) && gaps == old(gaps) + 1
    {
      RunMovesOn(state, others(gaps));
      state := Run(state, others(gaps));
      gaps := gaps + 1;
    }

    /** The compare-and-swap loop of `swapSnapshot` and of `markVerified`.  Each attempt judges the row it read; one that
        commits does so on that very row, so the call as a whole is the one move `m` at that moment, and every
        other verdict leaves the row alone.  Giving up means as many other commits came in between. */
    method Attempt(m: Move) returns (v: Verdict, ghost at: State)
      requires Valid()
      modifies this
      ensures Valid()
      ensures v.Commit? ==> v == Judge(Served(at), m) && state == Do(at, m) && Served(state) == Some(v.next)
      ensures !v.Commit? && !v.Exhausted? ==> v == Judge(Served(state), m)
      ensures !v.Exhausted? ==> VerdictIs(v, Served(if v.Commit? then at else state), m)
      ensures v.Exhausted? ==> state.rev >= old(state.rev) + 20
      ensures (forall n :: others(n) == []) ==> !v.Exhausted? && Served(if v.Commit? then at else state) == Served(old(state))
    {
      hide VerdictIs, Judge;
      at := state;
      for attempt := 0 to MAX_RETRIES
        invariant Valid() && state.rev >= old(state.rev) + attempt
        invariant (forall n :: others(n) == []) ==> attempt == 0 && state == old(state)
      {
        ghost var start := state;
        Gap();
        RunMovesOn(start, others(gaps - 1));
        var existing := state.row;
        v := Judge(if existing.Some? then Some(existing.value.row) else None, m);
        JudgeMeans(Served(state), m);
        if !v.Commit? { return v, at; }
        ghost var read := state;
        Gap();
        RunMovesOn(read, others(gaps - 1));
        at := state;
        if existing.None? {
          if state.row.None? {
            state := State(Some(Versioned(v.next, state.rev + 1)), state.rev + 1);
            return v, at;
          }
          EmptyUntilCreated(read, others(gaps - 1));
        } else {
          if state.row.value.rev == existing.value.rev {
            state := State(Some(Versioned(v.next, state.rev + 1)), state.rev + 1);
            return v, at;
          }
          OvertakenOnce(read, others(gaps - 1));
        }
      }
      v := Exhausted;
    }
  }

  /** A create that lost its race was overtaken by a commit. */
  lemma {:induction false} EmptyUntilCreated(s: State, moves: seq<Move>)
    requires Fresh(s) && s.row.None? && Run(s, moves).row.Some?
    ensures Run(s, moves).rev > s.rev
    decreases |moves|
  {
    if Do(s, moves[0]).row.Some? { RunMovesOn(Do(s, moves[0]), moves[1..]); } else { EmptyUntilCreated(Do(s, moves[0]), moves[1..]); }
  }

  lemma {:induction false} OvertakenOnce(s: State, moves: seq<Move>)
    requires Fresh(s) && s.row.Some? && Run(s, moves).row.Some? && Run(s, moves).row.value.rev != s.row.value.rev
    ensures Run(s, moves).rev > s.rev
    decreases |moves|
  {
    if Do(s, moves[0]) == s { OvertakenOnce(s, moves[1..]); } else { RunMovesOn(Do(s, moves[0]), moves[1..]); }
  }

  /* ------------------------------------------------------------------ what every history keeps */

  /** What a move may do to the row: create it, replace the sha the caller expected, keeping the row's birth, or
      stamp a later health time on the sha that was checked and nothing else. */
  lemma MovesAreFenced(s: State, m: Move)
    ensures var t := Do(s, m);
            || t == s
            || (&& t.row.Some? && t.rev == s.rev + 1 && var b := t.row.value.row;
                match Served(s)
                case None => m.Swap? && !m.fence.FromSha? && b.sha == m.candidate.sha && b.createdAt == m.now
                case Some(a) =>
                  if m.Swap? then
                    && a.sha != m.candidate.sha && b.sha == m.candidate.sha && b.manifestHash == m.candidate.manifestHash && b.body == m.candidate.body
                    && b.createdAt == a.createdAt && !m.fence.FromNothing? && (m.fence.FromSha? ==> m.fence.sha == a.sha)
                  else
                    && a.sha == m.sha && b == a.(lastVerifiedAt := m.at, updatedAt := m.at) && a.lastVerifiedAt < b.lastVerifiedAt)
  {
  }

  lemma {:induction false} RunOn(s: State, a: seq<Move>, b: seq<Move>)
    ensures Run(s, a + b) == Run(Run(s, a), b)
    decreases |a|
  {
    hide Do;
    if a == [] {
      assert a + b == b;
    } else {
      assert (a + b)[0] == a[0] && (a + b)[1..] == a[1..] + b;
      RunOn(Do(s, a[0]), a[1..], b);
    }
  }

  /** The state before and after move `n` of a run. */
  lemma RunStep(s: State, moves: seq<Move>, n: nat)
    requires n < |moves|
    ensures Run(s, moves[..n + 1]) == Do(Run(s, moves[..n]), moves[n])
  {
    hide Do;
    assert moves[..n + 1] == moves[..n] + [moves[n]] && [moves[n]][1..] == [];
    RunOn(s, moves[..n], [moves[n]]);
  }

  /** However often what is served is swapped in again, nothing changes, and under another manifest hash it is refused. */
  lemma {:induction false} ResyncsChangeNothing(s: State, moves: seq<Move>)
    requires Served(s).Some? && forall m | m in moves :: m.Swap? && m.candidate.sha == Served(s).value.sha
    ensures Run(s, moves) == s
    ensures forall m | m in moves :: Judge(Served(s), m) == if Served(s).value.manifestHash == m.candidate.manifestHash then Same(Served(s).value) else HashClash
    decreases |moves|
  {
    if moves != [] {
      assert moves[0] in moves;
      ResyncsChangeNothing(s, moves[1..]);
      forall m | m in moves ensures m == moves[0] || m in moves[1..] { }
    }
  }

  /** The number of swaps and creates among the moves that commit. */
  function Swaps(s: State, moves: seq<Move>): nat
    decreases |moves|
  {
    if moves == [] then 0
    else (if moves[0].Swap? && Do(s, moves[0]) != s then 1 else 0) + Swaps(Do(s, moves[0]), moves[1..])
  }

  /** Between swaps the content stands still and the health time never goes back, however stamps race. */
  lemma {:induction false} HealthRisesBetweenSwaps(s: State, moves: seq<Move>)
    requires Served(s).Some? && Swaps(s, moves) == 0
    ensures var t := Run(s, moves); t.row.Some? && var a, b := Served(s).value, Served(t).value;
            && b == a.(lastVerifiedAt := b.lastVerifiedAt, updatedAt := b.updatedAt) && a.lastVerifiedAt <= b.lastVerifiedAt
    decreases |moves|
  {
    if moves != [] {
      MovesAreFenced(s, moves[0]);
      HealthRisesBetweenSwaps(Do(s, moves[0]), moves[1..]);
    }
  }

  /** Move `n` is a swap that committed. */
  predicate SwapsIn(s: State, moves: seq<Move>, n: nat) {
    n < |moves| && moves[n].Swap? && Do(Run(s, moves[..n]), moves[n]) != Run(s, moves[..n])
  }

  /** What is served came of the last swap that committed, whose caller had said nothing of what it replaced or named
      just that sha; and nothing of it was changed since but the health time. */
  lemma {:induction false} ServedCameOfAFencedSwap(s: State, moves: seq<Move>) returns (n: nat)
    requires Served(s).Some? && Swaps(s, moves) > 0
    ensures SwapsIn(s, moves, n) && Served(Run(s, moves[..n])).Some? && Served(Run(s, moves)).Some?
    ensures var prior, b, m := Served(Run(s, moves[..n])).value, Served(Run(s, moves)).value, moves[n];
            && prior.sha != m.candidate.sha && (m.fence == Unfenced || m.fence == FromSha(prior.sha))
            && b.sha == m.candidate.sha && b.manifestHash == m.candidate.manifestHash && b.body == m.candidate.body
    ensures forall j | n < j < |moves| :: !SwapsIn(s, moves, j)
    decreases |moves|
  {
    hide Judge;
    var t := Do(s, moves[0]);
    MovesAreFenced(s, moves[0]);
    forall j | 0 <= j < |moves| - 1 ensures Run(t, moves[1..][..j]) == Run(s, moves[..j + 1]) { assert moves[..j + 1][1..] == moves[1..][..j]; }
    if Swaps(t, moves[1..]) > 0 {
      var m := ServedCameOfAFencedSwap(t, moves[1..]);
      n := m + 1;
      forall j | n < j < |moves| ensures !SwapsIn(s, moves, j) { assert !SwapsIn(t, moves[1..], j - 1); }
    } else {
      n := 0;
      HealthRisesBetweenSwaps(t, moves[1..]);
      forall j | 0 < j < |moves| ensures !SwapsIn(s, moves, j) { NoSwapIn(t, moves[1..], j - 1); }
    }
  }

  lemma {:induction false} NoSwapIn(s: State, moves: seq<Move>, j: nat)
    requires Swaps(s, moves) == 0 && j < |moves|
    ensures !SwapsIn(s, moves, j)
    decreases |moves|
  {
    hide Do;
    if j > 0 {
      NoSwapIn(Do(s, moves[0]), moves[1..], j - 1);
      assert moves[..j][1..] == moves[1..][..j - 1];
    }
  }

  /** However many callers race to replace one sha they had seen, at most one succeeds until it is served again: between two
      swaps that committed against the same sha, a swap has brought it back. */
  lemma OneSwapPerSha(s: State, moves: seq<Move>, i: nat, j: nat) returns (n: nat)
    requires Served(s).Some? && i < j && SwapsIn(s, moves, i) && SwapsIn(s, moves, j)
    requires moves[i].fence.FromSha? && moves[j].fence == moves[i].fence
    ensures i < n < j && SwapsIn(s, moves, n) && moves[n].candidate.sha == moves[i].fence.sha
  {
    hide Judge, Do;
    var a, b := Run(s, moves[..i]), Run(s, moves[..i + 1]);
    RunStep(s, moves, i);
    StaysServed(s, moves[..i]);
    StaysServed(s, moves[..i + 1]);
    MovesAreFenced(a, moves[i]);
    var part := moves[i + 1..j];
    RunOn(s, moves[..i + 1], part);
    assert moves[..i + 1] + part == moves[..j];
    StaysServed(s, moves[..j]);
    MovesAreFenced(Run(s, moves[..j]), moves[j]);
    if Swaps(b, part) == 0 {
      HealthRisesBetweenSwaps(b, part);
      assert false;
    }
    var k := ServedCameOfAFencedSwap(b, part);
    n := i + 1 + k;
    assert moves[..n] == moves[..i + 1] + part[..k];
    RunOn(s, moves[..i + 1], part[..k]);
  }

  lemma StaysServed(s: State, moves: seq<Move>)
    requires Served(s).Some?
    ensures Served(Run(s, moves)).Some?
  {
    BirthIsKept(s, moves);
  }

  /** The row keeps the time it was first created, through every swap and stamp. */
  lemma {:induction false} BirthIsKept(s: State, moves: seq<Move>)
    requires Served(s).Some?
    ensures Served(Run(s, moves)).Some? && Served(Run(s, moves)).value.createdAt == Served(s).value.createdAt
    decreases |moves|
  {
    if moves != [] {
      MovesAreFenced(s, moves[0]);
      BirthIsKept(Do(s, moves[0]), moves[1..]);
    }
  }
}
