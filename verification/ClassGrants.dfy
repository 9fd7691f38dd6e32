/** Class grants: the typed constraints a standing delegation carries, the pure evaluator, the row's
    life (active, then revoked or superseded), and the canonical spec a ratification binds. */
module ClassGrants {
  import opened Substrate
  import opened Decisions
  import opened DirectorProof

  datatype GrantState = Active | Revoked | Superseded

  datatype Grant = Grant(
    id: string, version: nat, cls: string, allowedActions: seq<string>, reversibleOnly: bool,
    parentKinds: Option<seq<string>>, excludedRefs: seq<string>, excludedClasses: seq<string>,
    ratificationRef: string, state: GrantState, representationDue: int,
    supersedes: Option<string>, supersededBy: Option<string>, createdAt: int, updatedAt: int)

  datatype Spec = Spec(cls: string, allowedActions: seq<string>, reversibleOnly: bool, parentKinds: Option<seq<string>>,
                       excludedRefs: seq<string>, excludedClasses: seq<string>, representationDays: int)

  const DAY_MS: int := 24 * 3600000

  /* ------------------------------------------------------------------ evaluation */

  /** The refs a decision touches; empty ones are dropped. */
  function TouchedRefs(d: Decision): set<string> {
    (if d.parentRef.Some? then {d.parentRef.value.id} else {}) + (set a | a in d.plan :: a.targetRef) - {""}
  }

  /** The typed constraints of `g`, which no verb ever rewrites, admit `d`. */
  predicate Covers(g: Grant, d: Decision) {
    && d.cls == Some(g.cls)
    && g.cls !in g.excludedClasses
    && (g.parentKinds.Some? ==> d.parentRef.Some? && d.parentRef.value.kind in g.parentKinds.value)
    && (forall r | r in TouchedRefs(d) :: r !in g.excludedRefs)
    && (forall a | a in d.plan :: a.action in g.allowedActions && (g.reversibleOnly ==> a.action in REVERSIBLE_ACTIONS))
  }

  /** `evaluateGrant`: the grant is live, not overdue for re-presentation, and covers the decision. */
  predicate Evaluates(g: Grant, d: Decision, now: int) {
    g.state == Active && now <= g.representationDue && Covers(g, d)
  }

  /* ------------------------------------------------------------------ the row's life */

  datatype GrantOp = Revoke(reason: string) | MarkSuperseded(successor: string)

  function GrantTransform(g: Grant, op: GrantOp, now: int): Grant {
    match op
    case Revoke(_) => g.(state := Revoked, updatedAt := now)
    case MarkSuperseded(s) => g.(state := Superseded, supersededBy := Some(s), updatedAt := now)
  }

  /** Constraints and lineage are fixed at mint; only an active row can change, and only once. */
  predicate GrantGrows(a: Grant, b: Grant) {
    && b == a.(state := b.state, supersededBy := b.supersededBy, updatedAt := b.updatedAt)
    && (a.state != Active ==> b == a)
  }

  lemma GrantGrowsTransitive()
    ensures Transitive(GrantGrows) && Reflexive(GrantGrows)
  {
  }

  /* ------------------------------------------------------------------ the canonical spec */

  predicate CharsBefore(a: string, b: string) {
    a == [] || (b != [] && (a[0] < b[0] || (a[0] == b[0] && CharsBefore(a[1..], b[1..]))))
  }

  lemma {:induction false} OrderIsTotal(a: string, b: string)
    ensures CharsBefore(a, b) || CharsBefore(b, a)
    ensures CharsBefore(a, b) && CharsBefore(b, a) ==> a == b
  {
    if a != [] && b != [] && a[0] == b[0] {
      OrderIsTotal(a[1..], b[1..]);
      assert a == [a[0]] + a[1..] && b == [b[0]] + b[1..];
    }
  }

  lemma {:induction false} OrderIsTransitive(a: string, b: string, c: string)
    requires CharsBefore(a, b) && CharsBefore(b, c)
    ensures CharsBefore(a, c)
  {
    if a != [] && b != [] && c != [] && a[0] == b[0] == c[0] {
      OrderIsTransitive(a[1..], b[1..], c[1..]);
    }
  }

  predicate Sorted(s: seq<string>) {
    forall i, j | 0 <= i < j < |s| :: CharsBefore(s[i], s[j])
  }

  function Insert(x: string, s: seq<string>): seq<string> {
    if s == [] || CharsBefore(x, s[0]) then [x] + s else [s[0]] + Insert(x, s[1..])
  }

  function Sort(s: seq<string>): seq<string> {
    if s == [] then [] else Insert(s[0], Sort(s[1..]))
  }

  lemma {:induction false} InsertIsOrdered(x: string, s: seq<string>)
    requires Sorted(s)
    ensures Sorted(Insert(x, s)) && multiset(Insert(x, s)) == multiset(s) + multiset{x}
  {
    if s != [] {
      assert s == [s[0]] + s[1..];
      if CharsBefore(x, s[0]) {
        forall i | 0 < i < |s| ensures CharsBefore(x, s[i]) { OrderIsTransitive(x, s[0], s[i]); }
      } else {
        OrderIsTotal(x, s[0]);
        InsertIsOrdered(x, s[1..]);
        var rest := Insert(x, s[1..]);
        forall i | 0 <= i < |rest| ensures CharsBefore(s[0], rest[i]) {
          assert rest[i] in multiset(rest);
          assert rest[i] == x || rest[i] in s[1..];
        }
      }
    }
  }

  lemma {:induction false} SortIsOrdered(s: seq<string>)
    ensures Sorted(Sort(s)) && multiset(Sort(s)) == multiset(s)
  {
    if s != [] {
      SortIsOrdered(s[1..]);
      InsertIsOrdered(s[0], Sort(s[1..]));
      assert s == [s[0]] + s[1..];
    }
  }

  lemma LeastComesFirst(s: seq<string>, x: string)
    requires Sorted(s) && x in s
    ensures CharsBefore(s[0], x)
  {
    OrderIsTotal(x, x);
  }

  lemma HeadsAgree(s: seq<string>, t: seq<string>)
    requires Sorted(s) && Sorted(t) && multiset(s) == multiset(t) && s != []
    ensures t != [] && s[0] == t[0]
  {
    assert s[0] in multiset(t);
    assert t[0] in multiset(s);
    LeastComesFirst(s, t[0]);
    LeastComesFirst(t, s[0]);
    OrderIsTotal(s[0], t[0]);
  }

  lemma WithoutHead(s: seq<string>)
    requires s != []
    ensures multiset(s[1..]) == multiset(s) - multiset{s[0]}
  {
    assert s == [s[0]] + s[1..];
  }

  /** Two ordered sequences with the same elements are the same sequence. */
  lemma {:induction false} OrderedIsUnique(s: seq<string>, t: seq<string>)
    requires Sorted(s) && Sorted(t) && multiset(s) == multiset(t)
    ensures s == t
  {
    if s == [] {
      assert |multiset(t)| == 0;
    } else {
      HeadsAgree(s, t);
      WithoutHead(s);
      WithoutHead(t);
      OrderedIsUnique(s[1..], t[1..]);
      assert s == [s[0]] + s[1..] && t == [t[0]] + t[1..];
    }
  }

  lemma SortIdentifiesPermutations(s: seq<string>, t: seq<string>)
    ensures Sort(s) == Sort(t) <==> multiset(s) == multiset(t)
  {
    SortIsOrdered(s);
    SortIsOrdered(t);
    if multiset(s) == multiset(t) { OrderedIsUnique(Sort(s), Sort(t)); }
  }

  /** The form whose hash a ratification embeds in its context. */
  function Canonical(s: Spec): Preimage {
    GrantSpec(s.cls, Sort(s.allowedActions), s.reversibleOnly,
              if s.parentKinds.Some? then Some(Sort(s.parentKinds.value)) else None,
              Sort(s.excludedRefs), Sort(s.excludedClasses), s.representationDays)
  }

  predicate SameUpToOrder(s: Option<seq<string>>, t: Option<seq<string>>) {
    (s.None? && t.None?) || (s.Some? && t.Some? && multiset(s.value) == multiset(t.value))
  }

  /** Two specs have one canonical form exactly when they differ in nothing but array order; an
      absent parent-kind list is not an empty one. */
  lemma CanonicalFormIdentifiesSpecs(s: Spec, t: Spec)
    ensures Canonical(s) == Canonical(t) <==>
              && s.cls == t.cls && s.reversibleOnly == t.reversibleOnly && s.representationDays == t.representationDays
              && multiset(s.allowedActions) == multiset(t.allowedActions)
              && SameUpToOrder(s.parentKinds, t.parentKinds)
              && multiset(s.excludedRefs) == multiset(t.excludedRefs)
              && multiset(s.excludedClasses) == multiset(t.excludedClasses)
  {
    SortIdentifiesPermutations(s.allowedActions, t.allowedActions);
    SortIdentifiesPermutations(s.excludedRefs, t.excludedRefs);
    SortIdentifiesPermutations(s.excludedClasses, t.excludedClasses);
    if s.parentKinds.Some? && t.parentKinds.Some? {
      SortIdentifiesPermutations(s.parentKinds.value, t.parentKinds.value);
    }
  }

  const SPEC_MARKER := "grant-spec-hash:"

  predicate Occurs(needle: string, hay: string) {
    needle <= hay || (hay != [] && Occurs(needle, hay[1..]))
  }

  /** `context` embeds the hash of exactly this spec. */
  predicate BindsSpec(h: Hash, context: string, s: Spec) {
    Occurs(SPEC_MARKER + h(Canonical(s)), context)
  }

  /** The spec a stored row was minted from, given the re-presentation period. */
  function SpecOf(g: Grant, days: int): Spec {
    Spec(g.cls, g.allowedActions, g.reversibleOnly, g.parentKinds, g.excludedRefs, g.excludedClasses, days)
  }
}
