/** The charter when appends do race: any number of callers that each read the current version, draw a number and write
    their row, one storage operation at a time.  Which appends does the current version then still hold? */
module CharterRaces {
  import opened Substrate
  import opened Charter

  type CallId = nat

  datatype Edit = Bind(input: BindInput) | Amend(section: SectionName, text: string, ratifiedBy: string, proofRef: string)

  datatype Call = HasRead(edit: Edit, base: Option<Version>, seen: set<nat>) | HasDrawn(row: Version, made: Made)

  /** How a row came about (history): the edit, the version it was made on, and the versions that were there when its
      caller read. */
  datatype Made = Made(edit: Edit, base: Option<Version>, seen: set<nat>, now: int)

  datatype World = World(rows: map<nat, Version>, counter: nat, calls: map<CallId, Call>, made: map<nat, Made>)

  datatype Step = Read(k: CallId, edit: Edit) | Draw(k: CallId, now: int) | Write(k: CallId) | Drop(k: CallId)

  function Init(): World {
    World(map[], 0, map[], map[])
  }

  /** The highest of some versions. */
  function Highest(rows: map<nat, Version>, below: nat): Option<Version> {
    if below == 0 then None else if below - 1 in rows then Some(rows[below - 1]) else Highest(rows, below - 1)
  }

  lemma {:induction false} HighestIs(rows: map<nat, Version>, below: nat)
    ensures var h := Highest(rows, below);
            && (h.None? ==> forall v | v in rows :: v >= below)
            && (h.Some? ==> exists v :: v in rows && v < below && rows[v] == h.value && forall u | u in rows && u < below :: u <= v)
  {
    if below > 0 && below - 1 !in rows { HighestIs(rows, below - 1); }
  }

  /** The row an edit makes of the version it was made on; a bind of an axiom that is live there makes none. */
  function Edited(base: Option<Version>, version: nat, edit: Edit, now: int): Option<Version> {
    var c := NextOf(base, version, now);
    match edit
    case Bind(input) => if Admissible(c.bindings, input) then Some(c.(bindings := AfterBind(c.bindings, input, now))) else None
    case Amend(section, text, author, proof) =>
      var s := Some(Section(text, author + ":" + proof, now));
      Some(if section == Vision then c.(vision := s) else c.(profile := s))
  }

  /** A row is its base with one edit made, and a bind that clashes with its base makes none. */
  ghost predicate EditMade(row: Version, base: Option<Version>, version: nat, edit: Edit, now: int) {
    && Follows(row, base, version, now)
    && match edit
       case Bind(input) => !Clashes(base, input) && BoundOn(row, base, input, now)
       case Amend(section, text, author, proof) => AmendedOn(row, base, section, text, author, proof, now)
  }

  lemma EditedMeans(base: Option<Version>, version: nat, edit: Edit, now: int)
    ensures match Edited(base, version, edit, now)
            case None => edit.Bind? && Clashes(base, edit.input)
            case Some(row) => EditMade(row, base, version, edit, now)
  {
    if edit.Bind? {
      hide AfterBind, Admissible, BoundOn, Clashes;
      AdmissibleMeans(base, version, now, edit.input);
      BindMeans(base, version, now, edit.input);
    }
  }

  function Do(w: World, s: Step): World {
    match s
    case Read(k, edit) =>
      if k in w.calls || |w.rows| >= SCAN_CAP then w
      else w.(calls := w.calls[k := HasRead(edit, Highest(w.rows, w.counter + 1), w.rows.Keys)])
    case Draw(k, now) =>
      if k in w.calls && w.calls[k].HasRead? then
        var c, n := w.calls[k], w.counter + 1;
        match Edited(c.base, n, c.edit, now)
        case None => w.(counter := n, calls := w.calls - {k})
        case Some(row) => w.(counter := n, calls := w.calls[k := HasDrawn(row, Made(c.edit, c.base, c.seen, now))])
      else w
    case Write(k) =>
      if k in w.calls && w.calls[k].HasDrawn? && w.calls[k].row.version !in w.rows then
        var c := w.calls[k];
        w.(rows := w.rows[c.row.version := c.row], made := w.made[c.row.version := c.made], calls := w.calls - {k})
      else w
    case Drop(k) => w.(calls := w.calls - {k})
  }

  function Run(w: World, steps: seq<Step>): World
    decreases |steps|
  {
    if steps == [] then w else Run(Do(w, steps[0]), steps[1..])
  }

  function Reached(steps: seq<Step>): World {
    Run(Init(), steps)
  }

  /* ------------------------------------------------------------------ what every interleaving keeps */

  /** The version made on is stored, and is the highest of those seen. */
  ghost predicate BaseOk(w: World, base: Option<Version>, seen: set<nat>) {
    && seen <= w.rows.Keys
    && (base.None? ==> seen == {})
    && (base.Some? ==> base.value.version in seen && w.rows[base.value.version] == base.value && forall u | u in seen :: u <= base.value.version)
  }

  ghost predicate RowOk(w: World, v: nat, row: Version, m: Made) {
    && row.version == v <= w.counter && BaseOk(w, m.base, m.seen) && (forall u | u in m.seen :: u < v)
    && Edited(m.base, v, m.edit, m.now) == Some(row)
  }

  ghost predicate CallOk(w: World, k: CallId) {
    k in w.calls && match w.calls[k]
                    case HasRead(_, base, seen) => BaseOk(w, base, seen) && forall u | u in seen :: u <= w.counter
                    case HasDrawn(row, m) => RowOk(w, row.version, row, m)
  }

  ghost predicate Inv(w: World) {
    && w.made.Keys == w.rows.Keys
    && (forall v {:trigger RowOk(w, v, w.rows[v], w.made[v])} | v in w.rows :: RowOk(w, v, w.rows[v], w.made[v]))
    && (forall k {:trigger CallOk(w, k)} | k in w.calls :: CallOk(w, k))
  }

  /** Rows and what they were made from stay what they were, and the counter only rises. */
  ghost predicate Grows(w: World, w': World) {
    && w.counter <= w'.counter && w.rows.Keys <= w'.rows.Keys && forall v | v in w.rows :: w'.rows[v] == w.rows[v]
  }

  lemma RowStays(w: World, w': World, v: nat, row: Version, m: Made)
    requires RowOk(w, v, row, m) && Grows(w, w')
    ensures RowOk(w', v, row, m)
  {
    hide Edited;
  }

  lemma CallStays(w: World, w': World, k: CallId)
    requires CallOk(w, k) && Grows(w, w') && k in w'.calls && w'.calls[k] == w.calls[k]
    ensures CallOk(w', k)
  {
    hide RowOk;
    if w.calls[k].HasDrawn? { RowStays(w, w', w.calls[k].row.version, w.calls[k].row, w.calls[k].made); }
  }

  /** A call read, drew, wrote or was dropped. */
  lemma CallMoves(w: World, w': World, k: CallId)
    requires Inv(w) && Grows(w, w') && w'.made.Keys == w'.rows.Keys && (k in w'.calls ==> CallOk(w', k))
    requires forall j | j in w'.calls && j != k :: j in w.calls && w'.calls[j] == w.calls[j]
    requires forall v | v in w'.rows :: if v in w.rows then w'.made[v] == w.made[v] else RowOk(w', v, w'.rows[v], w'.made[v])
    ensures Inv(w')
  {
    hide RowOk, CallOk;
    forall v | v in w'.rows ensures RowOk(w', v, w'.rows[v], w'.made[v]) { if v in w.rows { assert RowOk(w, v, w.rows[v], w.made[v]); RowStays(w, w', v, w.rows[v], w.made[v]); } }
    forall j | j in w'.calls ensures CallOk(w', j) { if j != k { assert CallOk(w, j); CallStays(w, w', j); } }
  }

  lemma DrawKeeps(w: World, k: CallId, now: int)
    requires Inv(w) && k in w.calls && w.calls[k].HasRead?
    ensures Inv(Do(w, Draw(k, now)))
  {
    hide Edited, Inv;
    var c, w' := w.calls[k], Do(w, Draw(k, now));
    assert CallOk(w, k) by { Holds(w, k); }
    EditedVersion(c.base, w.counter + 1, c.edit, now);
    SameKeys(w);
    CallMoves(w, w', k);
  }

  lemma Holds(w: World, k: CallId)
    requires Inv(w) && k in w.calls
    ensures CallOk(w, k)
  {
  }

  lemma SameKeys(w: World)
    requires Inv(w)
    ensures w.made.Keys == w.rows.Keys
  {
  }

  lemma WriteKeeps(w: World, k: CallId)
    requires Inv(w) && k in w.calls && w.calls[k].HasDrawn? && w.calls[k].row.version !in w.rows
    ensures Inv(Do(w, Write(k)))
  {
    hide Edited, Inv, RowOk;
    var c, w' := w.calls[k], Do(w, Write(k));
    assert CallOk(w, k) by { Holds(w, k); }
    RowStays(w, w', c.row.version, c.row, c.made);
    SameKeys(w);
    CallMoves(w, w', k);
  }

  lemma ReadKeeps(w: World, k: CallId, edit: Edit)
    requires Inv(w) && k !in w.calls && |w.rows| < SCAN_CAP
    ensures Inv(Do(w, Read(k, edit)))
  {
    hide Inv, RowOk, Edited;
    SameKeys(w);
    ReadFinds(w);
    CallMoves(w, Do(w, Read(k, edit)), k);
  }

  lemma StepKeeps(w: World, s: Step)
    requires Inv(w)
    ensures Inv(Do(w, s))
  {
    hide Inv, RowOk, Edited, BaseOk;
    SameKeys(w);
    match s
    case Read(k, edit) => if k !in w.calls && |w.rows| < SCAN_CAP { ReadKeeps(w, k, edit); }
    case Draw(k, now) => if k in w.calls && w.calls[k].HasRead? { DrawKeeps(w, k, now); }
    case Write(k) => if k in w.calls && w.calls[k].HasDrawn? && w.calls[k].row.version !in w.rows { WriteKeeps(w, k); }
    case Drop(k) => CallMoves(w, Do(w, s), k);
  }

  lemma EditedVersion(base: Option<Version>, version: nat, edit: Edit, now: int)
    ensures var r := Edited(base, version, edit, now);
            r.Some? ==> r.value.version == version && r.value.supersedes == if base.Some? then Some(base.value.version) else None
  {
  }

  lemma ReadFinds(w: World)
    requires Inv(w)
    ensures BaseOk(w, Highest(w.rows, w.counter + 1), w.rows.Keys) && forall u | u in w.rows.Keys :: u <= w.counter
  {
    hide Edited;
    HighestIs(w.rows, w.counter + 1);
    forall u | u in w.rows ensures u <= w.counter && w.rows[u].version == u { assert RowOk(w, u, w.rows[u], w.made[u]); }
  }

  lemma {:induction false} RunKeeps(w: World, steps: seq<Step>)
    requires Inv(w)
    ensures Inv(Run(w, steps))
    decreases |steps|
  {
    hide Inv, Do;
    if steps != [] {
      StepKeeps(w, steps[0]);
      RunKeeps(Do(w, steps[0]), steps[1..]);
    }
  }

  /** Every row holds what its base held and its own edit, and nothing else; and its base is the highest version that was
      there when its caller read. */
  lemma RowsAreEditsOfTheirBase(steps: seq<Step>, v: nat)
    requires v in Reached(steps).rows
    ensures var w := Reached(steps);
            && v in w.made && var m := w.made[v];
            && EditMade(w.rows[v], m.base, v, m.edit, m.now) && m.seen <= w.rows.Keys
            && w.rows[v].supersedes == (if m.base.Some? then Some(m.base.value.version) else None)
            && (m.base.Some? ==> m.base.value.version in m.seen && w.rows[m.base.value.version] == m.base.value)
            && forall u | u in m.seen :: u < v && m.base.Some? && u <= m.base.value.version
  {
    hide Edited, EditMade;
    RunKeeps(Init(), steps);
    var w := Reached(steps);
    assert RowOk(w, v, w.rows[v], w.made[v]);
    EditedVersion(w.made[v].base, v, w.made[v].edit, w.made[v].now);
    EditedMeans(w.made[v].base, v, w.made[v].edit, w.made[v].now);
  }

  /* ------------------------------------------------------------------ what the current version still holds */

  /** The versions on the way back from `v`, by `supersedes`, `v` first. */
  function Lineage(rows: map<nat, Version>, v: nat): seq<nat>
    decreases v
  {
    if v !in rows then []
    else if rows[v].supersedes.Some? && rows[v].supersedes.value < v then [v] + Lineage(rows, rows[v].supersedes.value)
    else [v]
  }

  /** The link from `x` back to its base passes over `v`. */
  predicate Jumps(rows: map<nat, Version>, x: nat, v: nat) {
    x in rows && v < x && (rows[x].supersedes.Some? ==> rows[x].supersedes.value < v)
  }

  /** An append is lost to a later version if and only if some link on the way back from that version passes over it. */
  lemma {:induction false} LostIffPassedOver(steps: seq<Step>, u: nat, v: nat)
    requires var w := Reached(steps); u in w.rows && v in w.rows && v <= u
    ensures var rows := Reached(steps).rows; v !in Lineage(rows, u) <==> exists x :: x in Lineage(rows, u) && Jumps(rows, x, v)
    decreases u
  {
    var rows := Reached(steps).rows;
    RowsAreEditsOfTheirBase(steps, u);
    var line := Lineage(rows, u);
    LineageFalls(rows, u);
    if rows[u].supersedes.Some? {
      var b := rows[u].supersedes.value;
      assert line == [u] + Lineage(rows, b);
      LineageFalls(rows, b);
      if v <= b { LostIffPassedOver(steps, b, v); } else { assert v != u ==> u in line && Jumps(rows, u, v); }
      if v <= b && v !in Lineage(rows, b) {
        var x :| x in Lineage(rows, b) && Jumps(rows, x, v);
        assert x in line;
      }
    } else {
      assert line == [u];
      assert v != u ==> Jumps(rows, u, v);
    }
  }

  lemma {:induction false} LineageFalls(rows: map<nat, Version>, u: nat)
    ensures forall x | x in Lineage(rows, u) :: x <= u && x in rows
    decreases u
  {
    if u in rows && rows[u].supersedes.Some? && rows[u].supersedes.value < u { LineageFalls(rows, rows[u].supersedes.value); }
  }

  /** And a link passes over an append exactly if that one is numbered above everything the later one's caller had seen: so
      two appends lose nothing if the second reads after the first has written. */
  lemma PassedOverIffUnseen(steps: seq<Step>, x: nat, v: nat)
    requires var w := Reached(steps); x in w.rows && v in w.rows && v < x
    ensures var w := Reached(steps);
            && x in w.made && (v in w.made[x].seen ==> !Jumps(w.rows, x, v))
            && (Jumps(w.rows, x, v) <==> v !in w.made[x].seen && forall b | b in w.made[x].seen :: b < v)
  {
    RowsAreEditsOfTheirBase(steps, x);
  }

  /** So of two appends made on one and the same version, the one with the higher number has lost the other. */
  lemma SameBaseLosesOne(steps: seq<Step>, x: nat, v: nat)
    requires var w := Reached(steps); x in w.rows && v in w.rows && v < x && w.rows[x].supersedes == w.rows[v].supersedes
    ensures v !in Lineage(Reached(steps).rows, x)
  {
    var rows := Reached(steps).rows;
    RowsAreEditsOfTheirBase(steps, x);
    RowsAreEditsOfTheirBase(steps, v);
    assert x in Lineage(rows, x) && Jumps(rows, x, v);
    LostIffPassedOver(steps, x, v);
  }
}
