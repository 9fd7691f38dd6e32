/** Scans of a whole kind, page by page, over a store that keeps one order. */
module Paging {

  /** The most rows the store hands out at once, whatever the caller asks for. */
  const LIST_CAP := 500

  function Min(a: nat, b: nat): nat {
    if a < b then a else b
  }

  /** One page of a scan: `limit` rows from `offset` on, and never more than the store's own cap. */
  function Page<T>(rows: seq<T>, limit: nat, offset: nat): seq<T> {
    var most := Min(limit, LIST_CAP);
    if offset >= |rows| then [] else if offset + most >= |rows| then rows[offset..] else rows[offset..offset + most]
  }

  /** `listAll`: pages until a short one.  The pages put together are the whole kind, each row once and in order. */
  method ListAll<T>(rows: seq<T>) returns (all: seq<T>, pages: nat)
    ensures all == rows && pages == |rows| / LIST_CAP + 1
  {
    all, pages := [], 0;
    while true
      invariant pages * LIST_CAP <= |rows| && all == rows[..pages * LIST_CAP]
      decreases |rows| - pages * LIST_CAP
    {
      var items := Page(rows, LIST_CAP, pages * LIST_CAP);
      assert rows[..pages * LIST_CAP] + items == rows[..pages * LIST_CAP + |items|];
      all := all + items;
      pages := pages + 1;
      if |items| < LIST_CAP { return; }
    }
  }

  /* ------------------------------------------------------------------ the session-binding backfill */

  datatype Seat = Seat(id: string, archived: bool, registered: seq<string>)

  /** The pointer writes an agent calls for. */
  function Pointers(seat: Seat): seq<(string, string)> {
    if seat.archived then [] else seq(|seat.registered|, i requires 0 <= i < |seat.registered| => (seat.registered[i], seat.id))
  }

  function AllPointers(seats: seq<Seat>): seq<(string, string)> {
    if seats == [] then [] else AllPointers(seats[..|seats| - 1]) + Pointers(seats[|seats| - 1])
  }

  function Written(bindings: map<string, string>, writes: seq<(string, string)>): map<string, string> {
    if writes == [] then bindings else Written(bindings, writes[..|writes| - 1])[writes[|writes| - 1].0 := writes[|writes| - 1].1]
  }

  lemma {:induction false} WrittenTwice(bindings: map<string, string>, a: seq<(string, string)>, b: seq<(string, string)>)
    ensures Written(Written(bindings, a), b) == Written(bindings, a + b)
    decreases |b|
  {
    if b == [] {
      assert a + b == a;
    } else {
      assert (a + b)[..|a + b| - 1] == a + b[..|b| - 1];
      WrittenTwice(bindings, a, b[..|b| - 1]);
    }
  }

  lemma Associates<T>(a: seq<T>, b: seq<T>, c: seq<T>)
    ensures (a + b) + c == a + (b + c)
  {
  }

  lemma {:induction false} PointersOfMore(a: seq<Seat>, b: seq<Seat>)
    ensures AllPointers(a + b) == AllPointers(a) + AllPointers(b)
    decreases |b|
  {
    if b == [] {
      assert a + b == a;
    } else {
      assert (a + b)[..|a + b| - 1] == a + b[..|b| - 1];
      PointersOfMore(a, b[..|b| - 1]);
      Associates(AllPointers(a), AllPointers(b[..|b| - 1]), Pointers(b[|b| - 1]));
    }
  }

  /** The writes of one page, in the order of its agents. */
  method Writes(batch: seq<Seat>) returns (writes: seq<(string, string)>)
    ensures writes == AllPointers(batch)
  {
    writes := [];
    for i := 0 to |batch|
      invariant writes == AllPointers(batch[..i])
    {
      assert batch[..i + 1][..i] == batch[..i];
      var before := writes;
      if !batch[i].archived {
        for j := 0 to |batch[i].registered|
          invariant writes == before + Pointers(batch[i])[..j]
        {
          writes := writes + [(batch[i].registered[j], batch[i].id)];
        }
      }
      assert writes == before + Pointers(batch[i]);
    }
    assert batch[..|batch|] == batch;
  }

  /** No session is listed by two agents that are not archived. */
  ghost predicate SessionsApart(seats: seq<Seat>) {
    forall i, j, s | 0 <= i < j < |seats| && s in seats[i].registered && s in seats[j].registered :: seats[i].archived || seats[j].archived || seats[i].id == seats[j].id
  }

  /** Every registered session of every agent that is not archived has its pointer row. */
  ghost predicate PointsToEverySession(bindings: map<string, string>, seats: seq<Seat>) {
    forall i, s | 0 <= i < |seats| && !seats[i].archived && s in seats[i].registered :: s in bindings && bindings[s] == seats[i].id
  }

  /** What a scan reports: how many agents it read, whether it stopped at the page guard, and (in the log only) whether
      a page could not be listed, which ends it with what it has. */
  datatype Report = Report(agents: nat, truncated: bool, aborted: bool)

  /** The scan of `n` agents from page `page` on, `agents` of them read. */
  function Scan(n: nat, pageSize: nat, maxPages: nat, fails: nat -> bool, page: nat, agents: nat): Report
    decreases maxPages - page
  {
    if page >= maxPages then Report(agents, true, false)
    else if fails(page) then Report(agents, false, true)
    else
      var got := if page * pageSize >= n then 0 else Min(n - page * pageSize, Min(pageSize, LIST_CAP));
      if got == 0 || got < pageSize then Report(agents + got, false, false)
      else Scan(n, pageSize, maxPages, fails, page + 1, agents + got)
  }

  /** One page of a scan, and what becomes of the rest. */
  lemma ScanOn<T>(rows: seq<T>, pageSize: nat, maxPages: nat, fails: nat -> bool, page: nat, agents: nat)
    ensures var n, got := |rows|, |Page(rows, pageSize, page * pageSize)|;
            Scan(n, pageSize, maxPages, fails, page, agents)
            == if page >= maxPages then Report(agents, true, false) else if fails(page) then Report(agents, false, true)
               else if got == 0 || got < pageSize then Report(agents + got, false, false)
               else Scan(n, pageSize, maxPages, fails, page + 1, agents + got)
    ensures var got := |Page(rows, pageSize, page * pageSize)|; got >= pageSize ==> got == pageSize && (page + 1) * pageSize == page * pageSize + got
    ensures page * pageSize <= |rows| ==>
              var batch := Page(rows, pageSize, page * pageSize);
              page * pageSize + |batch| <= |rows| && batch == rows[page * pageSize..page * pageSize + |batch|]
  {
    assert (page + 1) * pageSize == page * pageSize + pageSize;
  }

  /** Pages the store can hand out whole are read one after the other: all agents, or up to the guard, or up to the
      first page that cannot be listed. */
  lemma {:induction false} WholePagesAreRead(n: nat, pageSize: nat, maxPages: nat, fails: nat -> bool, page: nat)
    requires 0 < pageSize <= LIST_CAP && page * pageSize <= n && page <= maxPages
    ensures var r := Scan(n, pageSize, maxPages, fails, page, page * pageSize);
            && (r.truncated ==> r.agents == maxPages * pageSize && !r.aborted)
            && (r.aborted ==> exists p :: page <= p < maxPages && fails(p) && r.agents == p * pageSize)
            && (!r.truncated && !r.aborted ==> r.agents == n < maxPages * pageSize)
            && r.agents <= n
    decreases maxPages - page
  {
    if page < maxPages && !fails(page) {
      assert (page + 1) * pageSize == page * pageSize + pageSize;
      if page * pageSize + pageSize <= n { WholePagesAreRead(n, pageSize, maxPages, fails, page + 1); } else { RoomLeft(page + 1, maxPages, pageSize); }
    }
  }

  lemma RoomLeft(p: nat, q: nat, size: nat)
    requires p <= q
    ensures p * size <= q * size
  {
  }

  /** If every page can be listed, a backfill that does not report itself truncated has read every agent exactly if
      the page size is one the store grants, or all the agents fit into the one page it then reads.  It reports itself
      truncated exactly if the pages up to the guard were all full. */
  lemma BackfillIsCompleteIff(n: nat, pageSize: nat, maxPages: nat, fails: nat -> bool)
    requires forall p | 0 <= p < maxPages :: !fails(p)
    ensures var r := Scan(n, pageSize, maxPages, fails, 0, 0);
            && !r.aborted
            && (r.truncated <==> maxPages == 0 || (0 < pageSize <= LIST_CAP && pageSize * maxPages <= n))
            && (!r.truncated ==> (r.agents == n <==> 0 < pageSize <= LIST_CAP || n <= Min(pageSize, LIST_CAP)))
  {
    if 0 < pageSize <= LIST_CAP { WholePagesAreRead(n, pageSize, maxPages, fails, 0); }
  }

  /** And if a page cannot be listed, the report is the same, but exactly the pages before it were read; nothing but
      the number of agents tells a caller. */
  lemma AnAbortLooksComplete(n: nat, pageSize: nat, maxPages: nat, fails: nat -> bool) returns (page: nat)
    requires Scan(n, pageSize, maxPages, fails, 0, 0).aborted
    ensures var r := Scan(n, pageSize, maxPages, fails, 0, 0);
            !r.truncated && page < maxPages && fails(page) && r.agents == page * pageSize <= n && (pageSize > LIST_CAP ==> page == 0)
  {
    page := 0;
    if 0 < pageSize <= LIST_CAP {
      WholePagesAreRead(n, pageSize, maxPages, fails, 0);
      page :| page < maxPages && fails(page) && Scan(n, pageSize, maxPages, fails, 0, 0).agents == page * pageSize;
    }
  }

  /** Two calls that report no truncation and have missed an agent: a page size of zero, and one beyond the cap. */
  lemma APageOfNoneReadsNothing()
    ensures Scan(1, 0, 100, p => false, 0, 0) == Report(0, false, false)
    ensures Scan(501, 501, 100, p => false, 0, 0) == Report(500, false, false)
  {
  }

  class Backfiller {
    var bindings: map<string, string>

    constructor (bindings: map<string, string>)
      ensures this.bindings == bindings
    {
      this.bindings := bindings;
    }

    /** `backfillSessionBindings`, undisturbed and with every write successful; `fails` says which pages the store
        refuses to list.  It reports what the scan reports, and has written a pointer for every session of every agent
        read that is not archived; a correct one for every session, if it read all agents and no session is
        listed by two of them. */
    method Backfill(seats: seq<Seat>, pageSize: nat, maxPages: nat, fails: nat -> bool) returns (agents: nat, written: nat, truncated: bool)
      modifies this
      ensures var r := Scan(|seats|, pageSize, maxPages, fails, 0, 0); r.agents == agents && r.truncated == truncated
      ensures agents <= |seats| && bindings == Written(old(bindings), AllPointers(seats[..agents])) && written == |AllPointers(seats[..agents])|
      ensures agents == |seats| && SessionsApart(seats) ==> PointsToEverySession(bindings, seats)
    {
      hide Written, AllPointers, Scan, Page, SessionsApart, PointsToEverySession;
      agents, written, truncated := 0, 0, false;
      NoPage(bindings, seats);
      Complete(bindings, seats, 0);
      var page := 0;
      while true
        invariant page <= maxPages && agents == page * pageSize <= |seats|
        invariant Scan(|seats|, pageSize, maxPages, fails, 0, 0) == Scan(|seats|, pageSize, maxPages, fails, page, agents)
        invariant bindings == Written(old(bindings), AllPointers(seats[..agents])) && written == |AllPointers(seats[..agents])|
        invariant agents == |seats| && SessionsApart(seats) ==> PointsToEverySession(bindings, seats)
        decreases maxPages - page
      {
        ScanOn(seats, pageSize, maxPages, fails, page, agents);
        if page >= maxPages { return agents, written, true; }
        if fails(page) { return; }
        var batch := Page(seats, pageSize, page * pageSize);
        if |batch| == 0 { return; }
        var writes := Writes(batch);
        OnePage(old(bindings), seats, agents, batch);
        agents := agents + |batch|;
        PutAll(writes);
        written := written + |writes|;
        Complete(old(bindings), seats, agents);
        if |batch| < pageSize { return; }
        page := page + 1;
      }
    }

    method PutAll(writes: seq<(string, string)>)
      modifies this
      ensures bindings == Written(old(bindings), writes)
    {
      for i := 0 to |writes|
        invariant bindings == Written(old(bindings), writes[..i])
      {
        assert writes[..i + 1][..i] == writes[..i];
        bindings := bindings[writes[i].0 := writes[i].1];
      }
      assert writes[..|writes|] == writes;
    }
  }

  lemma Complete(bindings: map<string, string>, seats: seq<Seat>, agents: nat)
    requires agents <= |seats|
    ensures agents == |seats| && SessionsApart(seats) ==> PointsToEverySession(Written(bindings, AllPointers(seats[..agents])), seats)
  {
    if agents == |seats| && SessionsApart(seats) {
      assert seats[..agents] == seats;
      EverySessionIsWritten(seats, bindings);
    }
  }

  lemma NoPage(bindings: map<string, string>, seats: seq<Seat>)
    ensures Written(bindings, AllPointers(seats[..0])) == bindings && |AllPointers(seats[..0])| == 0
  {
  }

  lemma OnePage(bindings: map<string, string>, seats: seq<Seat>, done: nat, batch: seq<Seat>)
    requires done + |batch| <= |seats| && batch == seats[done..done + |batch|]
    ensures Written(bindings, AllPointers(seats[..done + |batch|])) == Written(Written(bindings, AllPointers(seats[..done])), AllPointers(batch))
    ensures |AllPointers(seats[..done + |batch|])| == |AllPointers(seats[..done])| + |AllPointers(batch)|
  {
    assert seats[..done + |batch|] == seats[..done] + batch;
    PointersOfMore(seats[..done], batch);
    WrittenTwice(bindings, AllPointers(seats[..done]), AllPointers(batch));
  }

  lemma {:induction false} PointerIsWritten(seats: seq<Seat>, i: nat, s: string, bindings: map<string, string>)
    requires SessionsApart(seats) && i < |seats| && !seats[i].archived && s in seats[i].registered
    ensures var done := Written(bindings, AllPointers(seats)); s in done && done[s] == seats[i].id
    decreases |seats|
  {
    var n := |seats| - 1;
    var front := seats[..n];
    var before := Written(bindings, AllPointers(front));
    WrittenTwice(bindings, AllPointers(front), Pointers(seats[n]));
    if i == n {
      SeatIsWritten(before, seats[n], s);
    } else {
      assert forall j | 0 <= j < n :: front[j] == seats[j];
      PointerIsWritten(front, i, s, bindings);
      OtherSeatsKeep(before, seats[n], s, seats[i].id);
    }
  }

  lemma {:induction false} WrittenPrefix(bindings: map<string, string>, seat: Seat, n: nat, s: string)
    requires !seat.archived && n <= |seat.registered|
    ensures var done := Written(bindings, Pointers(seat)[..n]);
            if s in seat.registered[..n] then s in done && done[s] == seat.id
            else (s in done <==> s in bindings) && (s in bindings ==> done[s] == bindings[s])
    decreases n
  {
    if n > 0 {
      assert Pointers(seat)[..n][..n - 1] == Pointers(seat)[..n - 1];
      assert seat.registered[..n] == seat.registered[..n - 1] + [seat.registered[n - 1]];
      WrittenPrefix(bindings, seat, n - 1, s);
    }
  }

  lemma SeatIsWritten(bindings: map<string, string>, seat: Seat, s: string)
    requires !seat.archived && s in seat.registered
    ensures var done := Written(bindings, Pointers(seat)); s in done && done[s] == seat.id
  {
    WrittenPrefix(bindings, seat, |seat.registered|, s);
    assert Pointers(seat)[..|seat.registered|] == Pointers(seat) && seat.registered[..|seat.registered|] == seat.registered;
  }

  lemma OtherSeatsKeep(bindings: map<string, string>, seat: Seat, s: string, id: string)
    requires s in bindings && bindings[s] == id && (s in seat.registered ==> seat.archived || seat.id == id)
    ensures var done := Written(bindings, Pointers(seat)); s in done && done[s] == id
  {
    if !seat.archived {
      WrittenPrefix(bindings, seat, |seat.registered|, s);
      assert Pointers(seat)[..|seat.registered|] == Pointers(seat) && seat.registered[..|seat.registered|] == seat.registered;
    }
  }

  lemma EverySessionIsWritten(seats: seq<Seat>, bindings: map<string, string>)
    requires SessionsApart(seats)
    ensures PointsToEverySession(Written(bindings, AllPointers(seats)), seats)
  {
    forall i, s | 0 <= i < |seats| && !seats[i].archived && s in seats[i].registered
      ensures s in Written(bindings, AllPointers(seats)) && Written(bindings, AllPointers(seats))[s] == seats[i].id
    {
      PointerIsWritten(seats, i, s, bindings);
    }
  }
}
