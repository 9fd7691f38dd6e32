/** The authority rail as a machine: one store, and any number of calls in flight.

    A call is a sequence of storage operations with anything at all happening in between, so each
    operation is a step of its own and the rows a call has read live in its entry of `calls`.
    `Do` is total: a step that does not apply leaves the world alone.  A rejected, failed or finished
    call disappears, and gives back any grant barrier it held. */
module Rail {
  import opened Substrate
  import opened Decisions
  import opened DirectorProof
  import opened ClassGrants

  type CallId = nat

  /* ------------------------------------------------------------------ the curation trail */

  datatype ClassChange = ClassChange(before: Option<string>, after: string)

  datatype Act =
    | CurateAct(change: Option<ClassChange>)
    | MergeAct(into: string)
    | DisposeAct
    | SelfDisposalAct(citation: string)

  /** One curation act: on which decision, by whom and why. */
  datatype Entry = Entry(decisionId: string, act: Act, curator: Actor, basis: string)

  /** The immutable capture of what the raiser submitted. */
  datatype Raw = Raw(id: string, title: string, context: string, cls: Option<string>, options: seq<Choice>,
                     contextRefs: seq<ContextRef>, raisedBy: Actor, raisedAt: int)

  datatype Record = Record(id: string, entry: Entry, sourceRawIds: seq<string>, createdAt: int)

  /** A trail record, with the act it was written for (history). */
  datatype Filed = Filed(record: Record, act: nat)

  /* ------------------------------------------------------------------ calls */

  datatype ResolveRequest = ResolveRequest(id: string, executor: Actor, answer: Answer, ref: Option<string>, rationale: Option<string>)

  datatype Call =
    | RawOwed(id: string, raw: Raw)
    | Ready(id: string, verb: Verb, before: Option<Decision>)
    | Loaded(id: string, verb: Verb, before: Option<Decision>, seen: Versioned<Decision>, now: int)
    | TrailOwed(act: nat, target: Option<seq<string>>, own: Option<seq<string>>)
    | ConfReady(cid: string, cop: ConfOp)
    | ConfLoaded(cid: string, cop: ConfOp, cseen: Versioned<Confirmation>, now: int)
    | GrantQueued(gid: string, gop: GrantOp)
    | GrantReady(gid: string, gop: GrantOp)
    | GrantLoaded(gid: string, gop: GrantOp, gseen: Versioned<Grant>)
    | ResolveQueued(req: ResolveRequest)
    | ResolveStart(req: ResolveRequest)
    | ResolvePre(req: ResolveRequest, pre: Decision)
    | ResolveAnswered(req: ResolveRequest, pre: Decision, conf: Confirmation)
    | MintRatified(mint: MintRequest, resolvedAt: int)
    | MintChecked(mint: MintRequest, resolvedAt: int, version: nat)
    | MintConsumed(mint: MintRequest, resolvedAt: int, version: nat, gid: string)

  datatype MintRequest = MintRequest(spec: Spec, ratificationRef: string, supersedes: Option<string>)

  /** A committed resolution, with whether its grant (if any) was active at that moment. */
  datatype Settled = Settled(id: string, resolution: Resolution, grantActive: bool)

  /** The tables, all under one revision counter, and the append-only trail. */
  datatype Store = Store(
    rev: nat,
    decisions: Table<Decision>,
    confirmations: Table<Confirmation>,
    grants: Table<Grant>,
    signals: map<string, Signal>,
    ratifications: map<string, string>,
    raws: map<string, Raw>,
    records: seq<Filed>)

  /** Why a committed curation act has no trail record: the caller crashed or its store call failed, the
      curate call had found no row to describe, or the record had no citation and was refused. */
  datatype Loss = Crashed | NothingRead | Uncited

  /** History variables: no step's outcome depends on them.  `uncaptured` are the decisions whose raiser died before
      the capture was written. */
  datatype Past = Past(resolved: seq<Settled>, acts: seq<Entry>, lost: map<nat, Loss>, uncaptured: set<string>, clock: int, steady: bool)

  datatype World = World(hash: Hash, db: Store, locks: map<string, CallId>, calls: map<CallId, Call>, past: Past)

  function Init(hash: Hash): World {
    World(hash, Store(0, map[], map[], map[], map[], map[], map[], []), map[], map[], Past([], [], map[], {}, 0, true))
  }

  /* ------------------------------------------------------------------ steps */

  datatype Step =
    | Raise(k: CallId, id: string, input: RaiseInput, rawId: string, now: int)
    | WriteRaw(k: CallId)
    | Begin(k: CallId, id: string, verb: Verb)
    | Load(k: CallId, now: int)
    | Commit(k: CallId)
    | ReadTargetRaw(k: CallId)
    | ReadOwnRaw(k: CallId)
    | WriteTrail(k: CallId, recordId: string, now: int)
    | MintSignal(k: CallId, id: string, signal: Signal)
    | MintConfirmation(k: CallId, id: string, conf: Confirmation)
    | BeginConsume(k: CallId, id: string, expected: Expectation, consumer: string)
    | ConfLoad(k: CallId, now: int)
    | ConfCommit(k: CallId)
    | BeginRevoke(k: CallId, id: string, reason: string)
    | Acquire(k: CallId)
    | GrantLoad(k: CallId)
    | GrantCommit(k: CallId, now: int)
    | BeginResolve(k: CallId, req: ResolveRequest)
    | ReadDecision(k: CallId)
    | ReadProof(k: CallId, now: int)
    | ReadAnswer(k: CallId, now: int)
    | BeginMint(k: CallId, mint: MintRequest)
    | ReadPrior(k: CallId)
    | ConsumeRatification(k: CallId, gid: string)
    | WriteGrant(k: CallId, now: int)
    | Abandon(k: CallId)

  /** The call is over, one way or another: its entry goes, and its barrier with it. */
  function Done(w: World, k: CallId): World {
    if k in w.calls then w.(calls := w.calls - {k}, locks := Unlock(w.locks, w.calls[k], k)) else w
  }

  /** A resolution under a grant takes the grant's barrier before it reads anything. */
  predicate UnderGrant(req: ResolveRequest) {
    req.ref.Some? && "grant-" <= req.ref.value
  }

  /** The grant whose barrier a call takes. */
  function Barrier(c: Call): Option<string> {
    match c
    case GrantReady(g, _) => Some(g)
    case GrantLoaded(g, _, _) => Some(g)
    case ResolveStart(req) => if UnderGrant(req) then req.ref else None
    case ResolvePre(req, _) => if UnderGrant(req) then req.ref else None
    case Ready(_, v, _) => if v.Resolve? && v.ref.GrantAtVersion? then Some(v.ref.grantId) else None
    case Loaded(_, v, _, _, _) => if v.Resolve? && v.ref.GrantAtVersion? then Some(v.ref.grantId) else None
    case _ => None
  }

  function Unlock(locks: map<string, CallId>, c: Call, k: CallId): map<string, CallId> {
    var b := Barrier(c);
    if b.Some? && b.value in locks && locks[b.value] == k then locks - {b.value} else locks
  }

  function At(w: World, k: CallId, c: Call): World {
    w.(calls := w.calls[k := c])
  }

  /** A committed write: the tables as written, and the next revision spent. */
  function Put(w: World, db: Store): World {
    w.(db := db.(rev := w.db.rev + 1))
  }

  function Tick(w: World, now: int): World {
    w.(past := w.past.(clock := Max(w.past.clock, now), steady := w.past.steady && w.past.clock <= now))
  }

  predicate Space(c: char) {
    var n := c as int;
    n in {9, 10, 11, 12, 13, 32, 160, 0x1680, 0x2028, 0x2029, 0x202f, 0x205f, 0x3000, 0xfeff} || 0x2000 <= n <= 0x200a
  }

  predicate Blank(s: string) {
    forall c | c in s :: Space(c)
  }

  function DoRaise(w: World, k: CallId, id: string, input: RaiseInput, rawId: string, now: int): World {
    match CreateOnly(w.db.decisions, id, Fresh(id, input, now), w.db.rev)
    case None => w
    case Some(t) =>
      At(Put(Tick(w, now), w.db.(decisions := t)), k,
         RawOwed(id, Raw(rawId, input.title, input.context, input.cls, input.options, input.contextRefs, input.raisedBy, now)))
  }

  function DoWriteRaw(w: World, k: CallId): World {
    if k in w.calls && w.calls[k].RawOwed? then
      var c := w.calls[k];
      Done(w.(db := w.db.(raws := w.db.raws[c.id := c.raw])), k)
    else w
  }

  /** What a decision verb does before its compare-and-swap loop.  A curate call reads the row it
      will describe in its trail record. */
  function DoBegin(w: World, k: CallId, id: string, verb: Verb): World {
    match verb
    case Curate(_, _, _, _) => At(w, k, Ready(id, verb, if id in w.db.decisions then Some(w.db.decisions[id].row) else None))
    case Merge(_, into, _) => if into == id || into !in w.db.decisions then w else At(w, k, Ready(id, verb, None))
    case Dispose(_, reason) => if Blank(reason) then w else At(w, k, Ready(id, verb, None))
    case Resolve(_, _, _, _, _) => w
    case _ => At(w, k, Ready(id, verb, None))
  }

  function DoLoad(w: World, k: CallId, now: int): World {
    if k in w.calls && w.calls[k].Ready? then
      var c := w.calls[k];
      if c.id !in w.db.decisions || !Allowed(w.db.decisions[c.id].row, c.verb) then Done(w, k)
      else At(Tick(w, now), k, Loaded(c.id, c.verb, c.before, w.db.decisions[c.id], now))
    else w
  }

  /** The trail entry a committed verb owes. */
  function Owed(id: string, verb: Verb, before: Option<Decision>): Option<Entry> {
    match verb
    case Curate(curator, _, cls, basis) =>
      var change := if before.Some? && cls.Some? && cls != before.value.cls then Some(ClassChange(before.value.cls, cls.value)) else None;
      Some(Entry(id, CurateAct(change), curator, basis))
    case RouteTo(router, SelfDisposal(t5, grant), _) =>
      var citation := if grant.Some? then grant.value else if t5.Some? then t5.value else "";
      Some(Entry(id, SelfDisposalAct(citation), router, "routed for self-disposal under cited authority"))
    case Merge(curator, into, basis) => Some(Entry(id, MergeAct(into), curator, basis))
    case Dispose(curator, reason) => Some(Entry(id, DisposeAct, curator, reason))
    case _ => None
  }

  predicate GrantActive(w: World, ref: AuthorityRef) {
    ref.GrantAtVersion? && ref.grantId in w.db.grants && w.db.grants[ref.grantId].row.state == Active
  }

  /** After the row is committed: a resolution is over, a curation act owes its record.  A curate call
      that found no row at first leaves no record, however its later read went. */
  function AfterCommit(w: World, k: CallId, id: string, verb: Verb, before: Option<Decision>, next: Decision): World {
    if verb.Resolve? && next.resolution.Some? then
      Done(w.(past := w.past.(resolved := w.past.resolved + [Settled(id, next.resolution.value, GrantActive(w, verb.ref))])), k)
    else
      match Owed(id, verb, before)
      case None => Done(w, k)
      case Some(e) =>
        if verb.Curate? && before.None? then
          Done(w.(past := w.past.(acts := w.past.acts + [e], lost := w.past.lost[|w.past.acts| := NothingRead])), k)
        else
          At(w.(past := w.past.(acts := w.past.acts + [e])), k, TrailOwed(|w.past.acts|, None, None))
  }

  function DoCommit(w: World, k: CallId): World {
    if k in w.calls && w.calls[k].Loaded? && Allowed(w.calls[k].seen.row, w.calls[k].verb) then
      var c := w.calls[k];
      var next := Transform(c.seen.row, c.verb, c.now);
      match PutIfMatch(w.db.decisions, c.id, next, c.seen.rev, w.db.rev)
      case None => At(w, k, Ready(c.id, c.verb, c.before))
      case Some(t) => AfterCommit(Put(w, w.db.(decisions := t)), k, c.id, c.verb, c.before, next)
    else w
  }

  function RawIds(w: World, id: string): seq<string> {
    if id in w.db.raws then [w.db.raws[id].id] else []
  }

  /** A merge reads the capture of the decision merged into first. */
  function DoReadTargetRaw(w: World, k: CallId): World {
    if k in w.calls && w.calls[k].TrailOwed? && w.calls[k].act < |w.past.acts| && w.calls[k].target.None? && w.calls[k].own.None? then
      var a := w.past.acts[w.calls[k].act].act;
      if a.MergeAct? then At(w, k, w.calls[k].(target := Some(RawIds(w, a.into)))) else w
    else w
  }

  /** The record's own capture is read next. */
  function DoReadOwnRaw(w: World, k: CallId): World {
    if k in w.calls && w.calls[k].TrailOwed? && w.calls[k].act < |w.past.acts| && w.calls[k].own.None? then
      var e := w.past.acts[w.calls[k].act];
      if e.act.MergeAct? && w.calls[k].target.None? then w else At(w, k, w.calls[k].(own := Some(RawIds(w, e.decisionId))))
    else w
  }

  /** The record cites what was read, its own capture first.  A self-disposal record without a citation is refused by the
      trail store. */
  function DoWriteTrail(w: World, k: CallId, recordId: string, now: int): World {
    if k in w.calls && w.calls[k].TrailOwed? && w.calls[k].act < |w.past.acts| && w.calls[k].own.Some? then
      var c := w.calls[k];
      var e := w.past.acts[c.act];
      if e.act.SelfDisposalAct? && e.act.citation == "" then Done(w.(past := w.past.(lost := w.past.lost[c.act := Uncited])), k)
      else Done(w.(db := w.db.(records := w.db.records + [Filed(Record(recordId, e, c.own.value + Default(c.target, []), now), c.act)])), k)
    else w
  }

  function DoMintSignal(w: World, k: CallId, id: string, s: Signal): World {
    if id in w.db.signals then w
    else
      var w' := w.(db := w.db.(signals := w.db.signals[id := s]));
      if Cites(s.confirmationId) then At(w', k, ConfReady(s.confirmationId.value, BindAnswer(id))) else w'
  }

  function DoMintConfirmation(w: World, id: string, c: Confirmation): World {
    match CreateOnly(w.db.confirmations, id, c.(answeredBy := None, consumedAt := None, consumedBy := None), w.db.rev)
    case None => w
    case Some(t) => Put(w, w.db.(confirmations := t))
  }

  function DoConfLoad(w: World, k: CallId, now: int): World {
    if k in w.calls && w.calls[k].ConfReady? then
      var c := w.calls[k];
      if c.cid !in w.db.confirmations || !ConfAllowed(w.db.confirmations[c.cid].row, c.cop, now) then Done(w, k)
      else At(w, k, ConfLoaded(c.cid, c.cop, w.db.confirmations[c.cid], now))
    else w
  }

  function DoConfCommit(w: World, k: CallId): World {
    if k in w.calls && w.calls[k].ConfLoaded? then
      var c := w.calls[k];
      match PutIfMatch(w.db.confirmations, c.cid, ConfTransform(c.cseen.row, c.cop, c.now), c.cseen.rev, w.db.rev)
      case None => At(w, k, ConfReady(c.cid, c.cop))
      case Some(t) => Done(Put(w, w.db.(confirmations := t)), k)
    else w
  }

  /** Takes the barrier a queued call waits for, once nobody holds it. */
  function DoAcquire(w: World, k: CallId): World {
    if k !in w.calls then w
    else
      match w.calls[k]
      case GrantQueued(g, op) =>
        if g in w.locks then w else At(w.(locks := w.locks[g := k]), k, GrantReady(g, op))
      case ResolveQueued(req) =>
        if !UnderGrant(req) then At(w, k, ResolveStart(req))
        else if req.ref.value in w.locks then w
        else At(w.(locks := w.locks[req.ref.value := k]), k, ResolveStart(req))
      case _ => w
  }

  function DoGrantLoad(w: World, k: CallId): World {
    if k in w.calls && w.calls[k].GrantReady? then
      var c := w.calls[k];
      if c.gid !in w.db.grants || w.db.grants[c.gid].row.state != Active then Done(w, k)
      else At(w, k, GrantLoaded(c.gid, c.gop, w.db.grants[c.gid]))
    else w
  }

  function DoGrantCommit(w: World, k: CallId, now: int): World {
    if k in w.calls && w.calls[k].GrantLoaded? then
      var c := w.calls[k];
      match PutIfMatch(w.db.grants, c.gid, GrantTransform(c.gseen.row, c.gop, now), c.gseen.rev, w.db.rev)
      case None => At(w, k, GrantReady(c.gid, c.gop))
      case Some(t) => Done(Put(w, w.db.(grants := t)), k)
    else w
  }

  function DoReadDecision(w: World, k: CallId): World {
    if k in w.calls && w.calls[k].ResolveStart? then
      var req := w.calls[k].req;
      if req.id !in w.db.decisions || Phase.Resolved !in Exits(w.db.decisions[req.id].row.status) then Done(w, k)
      else At(w, k, ResolvePre(req, w.db.decisions[req.id].row))
    else w
  }

  /** The gate has accepted the proof: what is left is the compare-and-swap loop. */
  function Gated(w: World, k: CallId, req: ResolveRequest, pre: Decision, mode: AuthorityMode, ref: AuthorityRef): World {
    At(w, k, Ready(req.id, Resolve(req.executor, req.answer, mode, ref, req.rationale), Some(pre)))
  }

  /** The gate's first read, chosen by the kind of proof the ref names.  Any other ref is refused. */
  function DoReadProof(w: World, k: CallId, now: int): World {
    if k in w.calls && w.calls[k].ResolvePre? then
      var ResolvePre(req, pre) := w.calls[k];
      if !Cites(req.ref) then Done(w, k)
      else
        var ref := req.ref.value;
        if "dconf-" <= ref then
          if ref !in w.db.confirmations || w.db.confirmations[ref].row.answeredBy.None? then Done(w, k)
          else At(w, k, ResolveAnswered(req, pre, w.db.confirmations[ref].row))
        else if "dsig-" <= ref then
          if ref !in w.db.signals || PlanRequiresConfirmation(pre.plan) then Done(w, k)
          else Gated(w, k, req, pre, DirectorViaProxy, ProofRef(ref))
        else if "grant-" <= ref then
          if !(pre.routedTo.Some? && pre.routedTo.value.SelfDisposal? && pre.routedTo.value.classGrantRef == Some(ref)) then Done(w, k)
          else if ref !in w.db.grants || !Evaluates(w.db.grants[ref].row, pre, now) then Done(w, k)
          else Gated(w, k, req, pre, ClassGrant, GrantAtVersion(w.db.grants[ref].row.id, w.db.grants[ref].row.version))
        else Done(w, k)
    else w
  }

  /** The gate's second read on the confirmation path: the signal that answered it. */
  function DoReadAnswer(w: World, k: CallId, now: int): World {
    if k in w.calls && w.calls[k].ResolveAnswered? then
      var ResolveAnswered(req, pre, conf) := w.calls[k];
      if conf.answeredBy.None? || conf.answeredBy.value !in w.db.signals || w.db.signals[conf.answeredBy.value].capturedBy.role != "director" then Done(w, k)
      else if req.ref.None? || !Consumable(conf, Expected(w.hash, pre, req.answer), now) then Done(w, k)
      else Gated(w, k, req, pre, DirectorDirect, ProofRef(req.ref.value))
    else w
  }

  /** The ratification must be a resolved decision of director grade whose context binds this very spec. */
  predicate Ratifies(h: Hash, d: Decision, spec: Spec) {
    && d.status in {Phase.Resolved, Executed}
    && d.resolution.Some? && d.resolution.value.mode in {DirectorDirect, DirectorViaProxy}
    && BindsSpec(h, d.context, spec)
  }

  predicate Consistent(spec: Spec) {
    spec.reversibleOnly ==> forall a | a in spec.allowedActions :: a in REVERSIBLE_ACTIONS
  }

  function DoBeginMint(w: World, k: CallId, m: MintRequest): World {
    if m.ratificationRef !in w.db.decisions || !Ratifies(w.hash, w.db.decisions[m.ratificationRef].row, m.spec) || !Consistent(m.spec) then w
    else At(w, k, MintRatified(m, w.db.decisions[m.ratificationRef].row.resolution.value.resolvedAt))
  }

  function DoReadPrior(w: World, k: CallId): World {
    if k in w.calls && w.calls[k].MintRatified? then
      var MintRatified(m, at) := w.calls[k];
      if !Cites(m.supersedes) then At(w, k, MintChecked(m, at, 1))
      else if m.supersedes.value !in w.db.grants then Done(w, k)
      else At(w, k, MintChecked(m, at, w.db.grants[m.supersedes.value].row.version + 1))
    else w
  }

  /** The ratification is spent through its primary key, before the grant row exists.  Every grant id has
      the counter's form. */
  function DoConsumeRatification(w: World, k: CallId, gid: string): World {
    if k in w.calls && w.calls[k].MintChecked? && "grant-" <= gid then
      var MintChecked(m, at, version) := w.calls[k];
      if m.ratificationRef in w.db.ratifications then Done(w, k)
      else At(w.(db := w.db.(ratifications := w.db.ratifications[m.ratificationRef := gid])), k, MintConsumed(m, at, version, gid))
    else w
  }

  function NewGrant(m: MintRequest, gid: string, version: nat, resolvedAt: int, now: int): Grant {
    Grant(gid, version, m.spec.cls, m.spec.allowedActions, m.spec.reversibleOnly, m.spec.parentKinds, m.spec.excludedRefs,
          m.spec.excludedClasses, m.ratificationRef, Active, resolvedAt + m.spec.representationDays * DAY_MS,
          m.supersedes, None, now, now)
  }

  function DoWriteGrant(w: World, k: CallId, now: int): World {
    if k in w.calls && w.calls[k].MintConsumed? then
      var MintConsumed(m, at, version, gid) := w.calls[k];
      match CreateOnly(w.db.grants, gid, NewGrant(m, gid, version, at, now), w.db.rev)
      case None => Done(w, k)
      case Some(t) =>
        var w' := Put(w, w.db.(grants := t));
        if !Cites(m.supersedes) then Done(w', k) else At(w', k, GrantQueued(m.supersedes.value, MarkSuperseded(gid)))
    else w
  }

  /** A crash, a store failure or an exhausted retry budget: nothing more comes of the call. */
  function DoAbandon(w: World, k: CallId): World {
    if k in w.calls && w.calls[k].TrailOwed? then Done(w.(past := w.past.(lost := w.past.lost[w.calls[k].act := Crashed])), k)
    else if k in w.calls && w.calls[k].RawOwed? then Done(w.(past := w.past.(uncaptured := w.past.uncaptured + {w.calls[k].id})), k)
    else Done(w, k)
  }

  /** A new call needs an unused call id; every other step works on the call it names. */
  predicate Opens(s: Step) {
    s.Raise? || s.Begin? || s.MintSignal? || s.MintConfirmation? || s.BeginConsume? || s.BeginRevoke? || s.BeginResolve? || s.BeginMint?
  }

  function Do(w: World, s: Step): World {
    if Opens(s) && s.k in w.calls then w
    else
      match s
      case Raise(k, id, input, rawId, now) => DoRaise(w, k, id, input, rawId, now)
      case WriteRaw(k) => DoWriteRaw(w, k)
      case Begin(k, id, verb) => DoBegin(w, k, id, verb)
      case Load(k, now) => DoLoad(w, k, now)
      case Commit(k) => DoCommit(w, k)
      case ReadTargetRaw(k) => DoReadTargetRaw(w, k)
      case ReadOwnRaw(k) => DoReadOwnRaw(w, k)
      case WriteTrail(k, recordId, now) => DoWriteTrail(w, k, recordId, now)
      case MintSignal(k, id, signal) => DoMintSignal(w, k, id, signal)
      case MintConfirmation(k, id, conf) => DoMintConfirmation(w, id, conf)
      case BeginConsume(k, id, e, consumer) => At(w, k, ConfReady(id, Consume(e, consumer)))
      case ConfLoad(k, now) => DoConfLoad(w, k, now)
      case ConfCommit(k) => DoConfCommit(w, k)
      case BeginRevoke(k, id, reason) => if Blank(reason) then w else At(w, k, GrantQueued(id, Revoke(reason)))
      case Acquire(k) => DoAcquire(w, k)
      case GrantLoad(k) => DoGrantLoad(w, k)
      case GrantCommit(k, now) => DoGrantCommit(w, k, now)
      case BeginResolve(k, req) => At(w, k, ResolveQueued(req))
      case ReadDecision(k) => DoReadDecision(w, k)
      case ReadProof(k, now) => DoReadProof(w, k, now)
      case ReadAnswer(k, now) => DoReadAnswer(w, k, now)
      case BeginMint(k, m) => DoBeginMint(w, k, m)
      case ReadPrior(k) => DoReadPrior(w, k)
      case ConsumeRatification(k, gid) => DoConsumeRatification(w, k, gid)
      case WriteGrant(k, now) => DoWriteGrant(w, k, now)
      case Abandon(k) => DoAbandon(w, k)
  }

  function Run(w: World, steps: seq<Step>): World
    decreases steps
  {
    if steps == [] then w else Run(Do(w, steps[0]), steps[1..])
  }
}
