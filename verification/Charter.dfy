/** The organisation charter: an append-only series of versions, amended one at a time. */
module Charter {
  import opened Substrate

  datatype BindingStatus = Bound | Superseded | Unbound

  datatype Binding = Binding(axiom: string, predecessor: Option<string>, ratifiedBy: string, proofRef: string, ratifiedAt: int,
                             status: BindingStatus, supersedes: Option<string>)

  datatype Section = Section(text: string, ratificationRef: string, amendedAt: int)

  datatype SectionName = Vision | DirectorProfile

  datatype Version = Version(version: nat, supersedes: Option<nat>, bindings: seq<Binding>, vision: Option<Section>, profile: Option<Section>, createdAt: int)

  datatype BindInput = BindInput(axiom: string, predecessor: Option<string>, status: Option<BindingStatus>, supersedes: Option<string>,
                                 ratifiedBy: string, proofRef: string)

  datatype Rejection = SelfReference | AlreadyLive | Truncated

  datatype Outcome = Appended(row: Version) | Rejected(why: Rejection)

  const SCAN_CAP := 500

  /** The index of the live binding of an axiom, or the number of bindings. */
  function LiveIndex(bindings: seq<Binding>, axiom: string): (k: nat)
    ensures k <= |bindings| && (k < |bindings| ==> bindings[k].axiom == axiom && bindings[k].status == Bound)
    ensures forall j | 0 <= j < k :: !(bindings[j].axiom == axiom && bindings[j].status == Bound)
  {
    if bindings == [] || (bindings[0].axiom == axiom && bindings[0].status == Bound) then 0 else 1 + LiveIndex(bindings[1..], axiom)
  }

  predicate Given(s: Option<string>) {
    s.Some? && s.value != ""
  }

  function StatusOf(input: BindInput): BindingStatus {
    if input.status.Some? then input.status.value else Bound
  }

  predicate Admissible(bindings: seq<Binding>, input: BindInput) {
    !(LiveIndex(bindings, input.axiom) < |bindings| && StatusOf(input) == Bound && !Given(input.supersedes))
  }

  function NewBinding(input: BindInput, now: int): Binding {
    Binding(input.axiom, input.predecessor, input.ratifiedBy, input.proofRef, now, StatusOf(input), input.supersedes)
  }

  /** The bindings after a bind: the live one put down as superseded if the input supersedes, and one more. */
  function AfterBind(bindings: seq<Binding>, input: BindInput, now: int): seq<Binding> {
    var k := LiveIndex(bindings, input.axiom);
    (if k < |bindings| && Given(input.supersedes) then bindings[k := bindings[k].(status := Superseded)] else bindings) + [NewBinding(input, now)]
  }

  /** No axiom is bound twice. */
  predicate OneLive(bindings: seq<Binding>) {
    forall i, j | 0 <= i < j < |bindings| :: !(bindings[i].status == Bound && bindings[j].status == Bound && bindings[i].axiom == bindings[j].axiom)
  }

  /** Versions rise, each names the one before it, and the counter is ahead of them all. */
  predicate CharterOk(rows: seq<Version>, counter: nat) {
    && (forall i | 0 <= i < |rows| :: rows[i].version <= counter && OneLive(rows[i].bindings))
    && (forall i, j | 0 <= i < j < |rows| :: rows[i].version < rows[j].version)
    && (forall i {:trigger Chained(rows, i)} | 0 <= i < |rows| :: Chained(rows, i))
  }

  predicate Chained(rows: seq<Version>, i: nat)
    requires i < |rows|
  {
    rows[i].supersedes == if i == 0 then None else Some(rows[i - 1].version)
  }

  function Last(rows: seq<Version>): Option<Version> {
    if rows == [] then None else Some(rows[|rows| - 1])
  }

  /** A row made on a base, before its edit. */
  function NextOf(base: Option<Version>, version: nat, now: int): Version {
    match base
    case None => Version(version, None, [], None, None, now)
    case Some(c) => Version(version, Some(c.version), c.bindings, c.vision, c.profile, now)
  }

  function Next(rows: seq<Version>, version: nat, now: int): Version {
    NextOf(Last(rows), version, now)
  }

  /* ------------------------------------------------------------------ what an append makes of the row before it */

  predicate Live(b: Binding, axiom: string) {
    b.axiom == axiom && b.status == Bound
  }

  predicate Nothing(s: Option<string>) {
    s == None || s == Some("")
  }

  /** A bind is refused for a live binding if there is one, it would be live itself, and it does not say it supersedes. */
  predicate Clashes(base: Option<Version>, input: BindInput) {
    && base.Some? && (exists b | b in base.value.bindings :: Live(b, input.axiom))
    && (input.status == None || input.status == Some(Bound)) && Nothing(input.supersedes)
  }

  /** The row carries the next number, names the row it follows, and says when it was made. */
  predicate Follows(row: Version, base: Option<Version>, version: nat, now: int) {
    row.version == version && row.createdAt == now && row.supersedes == (match base case None => None case Some(c) => Some(c.version))
  }

  /** A bind: the entries there were, the live one of the axiom put down as superseded if the input supersedes, and the new
      entry last; both sections as they were. */
  ghost predicate BoundOn(row: Version, base: Option<Version>, input: BindInput, now: int) {
    var was := match base case None => [] case Some(c) => c.bindings;
    && row.vision == (match base case None => None case Some(c) => c.vision) && row.profile == (match base case None => None case Some(c) => c.profile)
    && |row.bindings| == |was| + 1
    && (forall i | 0 <= i < |was| ::
          row.bindings[i] == if !Nothing(input.supersedes) && Live(was[i], input.axiom) && (forall j | 0 <= j < i :: !Live(was[j], input.axiom))
                             then was[i].(status := Superseded) else was[i])
    && var b := row.bindings[|was|];
    && b.axiom == input.axiom && b.predecessor == input.predecessor && b.supersedes == input.supersedes && b.ratifiedBy == input.ratifiedBy
    && b.proofRef == input.proofRef && b.ratifiedAt == now && b.status == (match input.status case None => Bound case Some(x) => x)
  }

  /** An amendment: the section named is the text, with who ratified it on what proof and when; the other section and the
      bindings are as they were. */
  predicate AmendedOn(row: Version, base: Option<Version>, section: SectionName, text: string, ratifiedBy: string, proofRef: string, now: int) {
    && row.bindings == (match base case None => [] case Some(c) => c.bindings)
    && match section
       case Vision =>
         row.vision == Some(Section(text, ratifiedBy + ":" + proofRef, now)) && row.profile == (match base case None => None case Some(c) => c.profile)
       case DirectorProfile =>
         row.profile == Some(Section(text, ratifiedBy + ":" + proofRef, now)) && row.vision == (match base case None => None case Some(c) => c.vision)
  }

  lemma AdmissibleMeans(base: Option<Version>, version: nat, now: int, input: BindInput)
    ensures Admissible(NextOf(base, version, now).bindings, input) <==> !Clashes(base, input)
  {
    if base.Some? {
      var k := LiveIndex(base.value.bindings, input.axiom);
      if k < |base.value.bindings| { assert base.value.bindings[k] in base.value.bindings; }
    }
  }

  lemma BindMeans(base: Option<Version>, version: nat, now: int, input: BindInput)
    ensures var c := NextOf(base, version, now); var row := c.(bindings := AfterBind(c.bindings, input, now));
            Follows(row, base, version, now) && BoundOn(row, base, input, now)
  {
    var was, next := NextOf(base, version, now).bindings, AfterBind(NextOf(base, version, now).bindings, input, now);
    var k := LiveIndex(was, input.axiom);
    assert next[|was|] == NewBinding(input, now);
    forall i | 0 <= i < |was|
      ensures next[i] == if !Nothing(input.supersedes) && Live(was[i], input.axiom) && (forall j | 0 <= j < i :: !Live(was[j], input.axiom))
                         then was[i].(status := Superseded) else was[i]
    {
      assert (Live(was[i], input.axiom) && forall j | 0 <= j < i :: !Live(was[j], input.axiom)) <==> i == k;
    }
  }

  class OrgCharter {
    var rows: seq<Version>
    var counter: nat

    predicate Valid()
      reads this
    {
      CharterOk(rows, counter)
    }

    constructor ()
      ensures Valid() && rows == [] && counter == 0
    {
      rows, counter := [], 0;
    }

    /** `getCurrentCharter`: the highest version of a full scan, refused when the scan may be partial.  The order of
        the scan does not matter; the highest version is the last appended. */
    method GetCurrent() returns (truncated: bool, current: Option<Version>)
      requires Valid()
      ensures truncated <==> |rows| >= SCAN_CAP
      ensures !truncated ==> current == Last(rows)
    {
      truncated, current := |rows| >= SCAN_CAP, None;
      if !truncated && rows != [] {
        var best := rows[0];
        for i := 1 to |rows|
          invariant best == rows[i - 1]
        {
          if rows[i].version > best.version { best := rows[i]; }
        }
        current := Some(best);
      }
    }

    /** The head of `appendVersion`: the current version, and a number for the next. */
    method Draw(now: int) returns (truncated: bool, next: Version)
      requires Valid()
      modifies `counter
      ensures truncated <==> |rows| >= SCAN_CAP
      ensures if truncated then counter == old(counter) else counter == old(counter) + 1 && next == Next(rows, counter, now)
      ensures Valid()
    {
      var current;
      truncated, current := GetCurrent();
      next := Version(0, None, [], None, None, now);
      if !truncated {
        counter := counter + 1;
        next := match current
                case None => Version(counter, None, [], None, None, now)
                case Some(c) => Version(counter, Some(c.version), c.bindings, c.vision, c.profile, now);
      }
    }

    /** `bindAxiom`.  The number is drawn before the bindings are looked at, so a refusal for a live binding
        uses it up. */
    method BindAxiom(input: BindInput, now: int) returns (r: Outcome)
      requires Valid()
      modifies this
      ensures Valid()
      ensures r == Rejected(SelfReference) <==> input.predecessor == Some(input.axiom) || input.supersedes == Some(input.axiom)
      ensures r == Rejected(Truncated) <==> r != Rejected(SelfReference) && |old(rows)| >= 500
      ensures r == Rejected(AlreadyLive) <==>
                input.predecessor != Some(input.axiom) && input.supersedes != Some(input.axiom) && |old(rows)| < 500 && Clashes(Last(old(rows)), input)
      ensures r == Rejected(AlreadyLive) ==> counter == old(counter) + 1
      ensures r.Rejected? ==> rows == old(rows) && (r.why != AlreadyLive ==> counter == old(counter))
      ensures r.Appended? ==>
                && |old(rows)| < 500 && counter == old(counter) + 1 && rows == old(rows) + [r.row]
                && Follows(r.row, Last(old(rows)), counter, now) && BoundOn(r.row, Last(old(rows)), input, now)
    {
      if input.predecessor == Some(input.axiom) || input.supersedes == Some(input.axiom) { return Rejected(SelfReference); }
      var truncated, next := Draw(now);
      if truncated { return Rejected(Truncated); }
      AdmissibleMeans(Last(rows), counter, now, input);
      BindMeans(Last(rows), counter, now, input);
      var admitted, bindings := EditBindings(next.bindings, input, now);
      if !admitted { return Rejected(AlreadyLive); }
      hide AfterBind, Admissible, LiveIndex, BoundOn, Clashes;
      NextKeepsOrder(rows, old(counter), counter, next.(bindings := bindings), now);
      rows := rows + [next.(bindings := bindings)];
      return Appended(next.(bindings := bindings));
    }

    /** The edit of a copy of the bindings: supersede the live one in place, push the new one. */
    static method EditBindings(current: seq<Binding>, input: BindInput, now: int) returns (admitted: bool, bindings: seq<Binding>)
      ensures admitted <==> Admissible(current, input)
      ensures admitted ==> bindings == AfterBind(current, input, now) && (OneLive(current) ==> OneLive(bindings))
    {
      bindings := current;
      var liveIdx := LiveIndex(bindings, input.axiom);
      var status := if input.status.Some? then input.status.value else Bound;
      if liveIdx < |bindings| && status == Bound && !Given(input.supersedes) { return false, bindings; }
      if liveIdx < |bindings| && Given(input.supersedes) { bindings := bindings[liveIdx := bindings[liveIdx].(status := Superseded)]; }
      bindings := bindings + [Binding(input.axiom, input.predecessor, input.ratifiedBy, input.proofRef, now, status, input.supersedes)];
      admitted := true;
      if OneLive(current) { BindKeepsOneLive(current, input, now); }
    }

    /** `amendCharter`: one section, nothing else. */
    method AmendCharter(section: SectionName, text: string, ratifiedBy: string, proofRef: string, now: int) returns (r: Outcome)
      requires Valid()
      modifies this
      ensures Valid()
      ensures r.Rejected? <==> |old(rows)| >= 500
      ensures r.Rejected? ==> r.why == Truncated && rows == old(rows) && counter == old(counter)
      ensures r.Appended? ==>
                && counter == old(counter) + 1 && rows == old(rows) + [r.row] && Follows(r.row, Last(old(rows)), counter, now)
                && AmendedOn(r.row, Last(old(rows)), section, text, ratifiedBy, proofRef, now)
    {
      var truncated, next := Draw(now);
      if truncated { return Rejected(Truncated); }
      var s := Some(Section(text, ratifiedBy + ":" + proofRef, now));
      var row := if section == Vision then next.(vision := s) else next.(profile := s);
      NextKeepsOrder(rows, old(counter), counter, row, now);
      rows := rows + [row];
      return Appended(row);
    }
  }

  /** A row made on the current one, under the next number, carries the series on. */
  lemma NextKeepsOrder(rows: seq<Version>, before: nat, counter: nat, row: Version, now: int)
    requires CharterOk(rows, before) && counter == before + 1 && OneLive(row.bindings)
    requires row.version == counter && row.supersedes == Next(rows, counter, now).supersedes
    ensures CharterOk(rows + [row], counter)
  {
    hide OneLive;
    var all := rows + [row];
    forall i | 0 <= i < |all| ensures all[i].version <= counter && OneLive(all[i].bindings) {}
    forall i, j | 0 <= i < j < |all| ensures all[i].version < all[j].version {}
    forall i: nat | i < |all| ensures Chained(all, i) { if i < |rows| { assert Chained(rows, i); } }
  }

  /** An admitted bind keeps at most one binding of an axiom live. */
  lemma BindKeepsOneLive(bindings: seq<Binding>, input: BindInput, now: int)
    requires OneLive(bindings) && Admissible(bindings, input)
    ensures OneLive(AfterBind(bindings, input, now))
  {
  }

  /** A bind adds exactly one binding at the end and changes at most one before it, from bound to superseded,
      and of the same axiom; nothing else about any binding changes. */
  lemma BindTouchesOneBinding(bindings: seq<Binding>, input: BindInput, now: int)
    ensures var next := AfterBind(bindings, input, now);
            && |next| == |bindings| + 1 && next[|bindings|] == NewBinding(input, now)
            && (forall i | 0 <= i < |bindings| && next[i] != bindings[i] ::
                  bindings[i].axiom == input.axiom && bindings[i].status == Bound && next[i] == bindings[i].(status := Superseded) && Given(input.supersedes))
            && (forall i, j | 0 <= i < j < |bindings| :: next[i] == bindings[i] || next[j] == bindings[j])
  {
    var k, next := LiveIndex(bindings, input.axiom), AfterBind(bindings, input, now);
    assert next[|bindings|] == NewBinding(input, now);
    forall i | 0 <= i < |bindings| ensures next[i] == bindings[i] || (i == k && Given(input.supersedes)) {}
  }

  /** A bind that is admitted ends the live binding of its axiom exactly if it supersedes, whatever its own status: one that
      merely says "unbound" leaves the live one live.  What is live then is the new entry if it is bound, else the old one
      unless superseded. */
  lemma OnlySupersedingEndsABinding(bindings: seq<Binding>, input: BindInput, now: int)
    requires OneLive(bindings) && Admissible(bindings, input) && LiveIndex(bindings, input.axiom) < |bindings|
    ensures var next, k := AfterBind(bindings, input, now), LiveIndex(bindings, input.axiom);
            && (next[k].status != Bound <==> Given(input.supersedes))
            && LiveIndex(next, input.axiom)
               == if !Given(input.supersedes) then k else if StatusOf(input) == Bound then |bindings| else |next|
    ensures StatusOf(input) != Bound || Given(input.supersedes)
  {
    var k := LiveIndex(bindings, input.axiom);
    var next := AfterBind(bindings, input, now);
    assert next[|bindings|] == NewBinding(input, now);
    if Given(input.supersedes) {
      forall j | 0 <= j < |bindings| ensures !(next[j].axiom == input.axiom && next[j].status == Bound) {}
    } else {
      assert next[k] == bindings[k];
      forall j | 0 <= j < k ensures !(next[j].axiom == input.axiom && next[j].status == Bound) {}
    }
  }

  /** The versions on the way back from version `v`, by `supersedes`. */
  function Lineage(rows: seq<Version>, v: nat): seq<nat>
    decreases v
  {
    var k := IndexOfVersion(rows, v);
    if k == |rows| then []
    else if rows[k].supersedes.Some? && rows[k].supersedes.value < v then [v] + Lineage(rows, rows[k].supersedes.value)
    else [v]
  }

  function IndexOfVersion(rows: seq<Version>, v: nat): (k: nat)
    ensures k <= |rows| && (k < |rows| ==> rows[k].version == v) && forall j | 0 <= j < k :: rows[j].version != v
  {
    if rows == [] || rows[0].version == v then 0 else 1 + IndexOfVersion(rows[1..], v)
  }

  /** From the current version, `supersedes` leads back through every version ever appended, newest first. */
  lemma {:induction false} LineageVisitsEveryVersion(rows: seq<Version>, counter: nat, k: nat)
    requires CharterOk(rows, counter) && k < |rows|
    ensures var line := Lineage(rows, rows[k].version); |line| == k + 1 && forall i | 0 <= i <= k :: line[i] == rows[k - i].version
    decreases k
  {
    assert IndexOfVersion(rows, rows[k].version) == k;
    assert Chained(rows, k);
    if k > 0 { LineageVisitsEveryVersion(rows, counter, k - 1); }
  }
}
