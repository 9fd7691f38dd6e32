/** The compare-and-swap store every repository is written against.

    A row lives under (kind, id) and carries the revision of its last write.  One counter issues
    every revision, so a revision names one write of one row.  `getWithRevision` hands out a row
    with its revision, and `putIfMatch` commits only while that revision is still the current one.
    Each kind is one table here; the counter is shared by all of them. */
module Substrate {

  datatype Option<+T> = None | Some(value: T)

  function OrElse<T>(a: Option<T>, b: Option<T>): Option<T> {
    if a.Some? then a else b
  }

  function Default<T>(o: Option<T>, d: T): T {
    if o.Some? then o.value else d
  }

  datatype Versioned<+R> = Versioned(row: R, rev: nat)

  type Table<R> = map<string, Versioned<R>>

  /** `createOnly`: fails when the id is taken.  `rev` is the counter before the write. */
  function CreateOnly<R>(t: Table<R>, id: string, row: R, rev: nat): (r: Option<Table<R>>) {
    if id in t then None else Some(t[id := Versioned(row, rev + 1)])
  }

  /** `putIfMatch`: commits only on the revision that was read. */
  function PutIfMatch<R>(t: Table<R>, id: string, row: R, expected: nat, rev: nat): (r: Option<Table<R>>) {
    if id in t && t[id].rev == expected then Some(t[id := Versioned(row, rev + 1)]) else None
  }

  /** The revision of a row, or 0 while there is none. */
  function Revision<R>(t: Table<R>, id: string): nat {
    if id in t then t[id].rev else 0
  }

  /** No revision in the table is newer than the counter. */
  ghost predicate Bounded<R>(t: Table<R>, rev: nat) {
    forall id | id in t :: t[id].rev <= rev
  }

  ghost predicate Transitive<R(!new)>(grows: (R, R) -> bool) {
    forall a, b, c :: grows(a, b) && grows(b, c) ==> grows(a, c)
  }

  ghost predicate Reflexive<R(!new)>(grows: (R, R) -> bool) {
    forall a :: grows(a, a)
  }

  /** What any amount of work by other callers does to a table: rows stay, revisions only rise, an
      unchanged revision means an unchanged row, and every row moves only along `grows`. */
  ghost predicate Advances<R>(t: Table<R>, t': Table<R>, grows: (R, R) -> bool) {
    forall id | id in t ::
      && id in t'
      && t[id].rev <= t'[id].rev
      && (t[id].rev == t'[id].rev ==> t'[id] == t[id])
      && grows(t[id].row, t'[id].row)
  }

  /** What a caller still knows about a row it read some time ago. */
  ghost predicate Seen<R>(t: Table<R>, id: string, seen: Versioned<R>, grows: (R, R) -> bool) {
    && id in t
    && seen.rev <= t[id].rev
    && (seen.rev == t[id].rev ==> t[id] == seen)
    && grows(seen.row, t[id].row)
  }

  lemma SeenStable<R(!new)>(t: Table<R>, t': Table<R>, id: string, seen: Versioned<R>, grows: (R, R) -> bool)
    requires Seen(t, id, seen, grows) && Advances(t, t', grows) && Transitive(grows)
    ensures Seen(t', id, seen, grows)
  {
  }

  lemma AdvancesTransitive<R(!new)>(t: Table<R>, u: Table<R>, v: Table<R>, grows: (R, R) -> bool)
    requires Advances(t, u, grows) && Advances(u, v, grows) && Transitive(grows)
    ensures Advances(t, v, grows)
  {
  }
}
