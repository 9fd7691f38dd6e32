# The decision rail and the agent registry, verified

This project models the hub's two concurrent protocols over its compare-and-swap store, and the smaller state
machines around them, and proves what they keep under every interleaving of their callers. Nothing was executed:
every statement is about the model, and the model follows the code named in the table below.

## How it is built

**The store** (`Substrate.dfy`). A kind is a table from id to row and revision. One counter issues all revisions.
`createOnly` fails on a taken id; `putIfMatch` commits only on the revision that was read.

**The authority rail** (`Decisions`, `DirectorProof`, `ClassGrants`, `Rail`, `RailSafety`, `RailTheorems`,
`RailAnswers`, `RailTrail`, `RailCaptures`, `RailRuns`, `RailMethods`, `Lives`, `VerbRules`). A world holds the tables, the grant barriers, and any number of calls in flight. A
call is a sequence of storage operations, each a step of its own, so anything other callers do falls between its
reads and its commit. `Rail.Do` is total: a step that does not apply leaves the world alone, so a run is any
sequence of steps at all. `RailSafety` shows one invariant kept by every step; `RailTheorems`, `RailAnswers`, `RailTrail` and
`RailCaptures` draw from it what holds of every run; `RailRuns` has the runs in which something goes wrong without a crash; `Lives` tells every field of a row from the verbs applied to it, which is the
reference the verbs' transforms are held against; `VerbRules` says from a caller's side when each verb is refused and what it records; `RailMethods` writes the repositories' methods with their retry loops as a class
whose every method stays within the runs of the machine, whatever other callers do in its gaps.

**The agent registry** (`Agents`, `Registry`, `SessionIndex`, `SessionResolution`, `SessionMemory`, `SessionRuns`,
`ClaimBreaker`, `Breaker`, `Restarts`, `RegistryMethods`, `Networking`). The same shape. The rows keep a history of committed writes; that this history is linear, each write
applied to exactly what the one before left, is what "no lost updates" means, and the counters follow from it. The
pointer rows derived from `registeredSessions` are a second invariant: each shows an agent's list as it stood at the
version the row was last written from, whether a claim, a handshake or the backfill at boot wrote it.

**Smaller machines.** Staged actions on a thread (`StagedActions`), the append-only charter
(`Charter`, and `CharterRaces` for appends that race), the served
constitution (`Constitution`), the paged scans and the session-binding backfill (`Paging`), and the plan a resolution
carries, from its validation to its last effect (`Executor`).

Hashes are an arbitrary function of what is hashed; no statement needs them to be free of collisions. Dates are
integer milliseconds and clock readings are parameters of the steps that take them. Ids a counter would issue are
chosen by the step that uses them, and `createOnly` decides. Lists, maps and rows that the source updates in place
are fields of type `seq` and `map` that the methods reassign. A retry loop is a loop in the method and any number of
attempts in the machine, so the machine's runs include every retry budget.

## What turned out false of the code

* **A curate call can leave no trail record.** `curateDecision` reads the row before its loop and writes the record
  only if that read found one. If the raise lands in between, the class changes with nothing on the trail
  (`RailTrail.ACurateCanGoUnrecorded`). Without crashes a curate act has its record if and only if that first read found
  the row (`RailCaptures.CurateIsRecordedIff`), and any other act unless it is a self-disposal with an empty citation
  (`RailTrail.WhichActsAreOnRecord`). The comment at `hub/src/entities/decision-repository-substrate.ts:122-127` promises
  a record for every transition.
* **A self-disposal can be committed and its record refused.** The route check accepts an empty grant reference when
  a rule is cited, but the citation is taken with `??` and is the empty string, which the trail store rejects
  (`RailRuns.ASelfDisposalCanGoUncited`). Without crashes a self-disposal has its record exactly if its route does not
  give the empty string for a grant (`RailTrail.SelfDisposalIsRecordedIff`). The policy handler at
  `hub/src/policy/decision-policy.ts:289-295` refuses such a route, so the input reaches only callers of the
  repository itself.
* **A merge record can cite one capture of two.** The merge looks for the capture of the decision merged into, then for
  its own, and only then writes the record. The first can come too early (`RailRuns.AMergeRecordCanCiteOne`), even if both
  captures are stored when the record is written (`RailRuns.AMergeRecordCanMissAStoredCapture`). The record cites both if
  and only if the other capture was stored at the first read and its own at the second (`RailCaptures.MergeIsOnRecord`),
  so always if both were when the merge call began (`RailCaptures.MergeCitesBoth`).
* **The pointer rows can disagree with the agents' lists.** The comment at
  `hub/src/entities/agent-repository-substrate.ts:288-290` says reconciling by difference keeps the two exactly in
  step. Two registrations of one agent whose reconciles overlap can be written out of order, and then a displaced
  session still resolves after a restart (`SessionRuns.AnOverlapCanLeaveAStalePointer`). In every reachable state a
  row is right if and only if its session came or went an even number of times on the agent's list since the version the
  row was last written from (`SessionResolution.PointerIsRightIff`), whether or not the last change itself wrote it. For two overlapping writers, however
  interleaved, that comes to: a row both owe is right exactly if the later registration wrote it last
  (`SessionResolution.OverlappingWriters`), and written out of order all rows are right exactly if neither undid what the
  other did (`SessionResolution.OutOfOrderAgreesIff`).
* **The backfill at boot can revive a displaced session.** `hub/src/index.ts:224-229` says it runs before traffic is served,
  but nobody awaits it. If it lists an agent, a claim then displaces a session and deletes its row, and the backfill's put
  lands after that, the displaced session resolves again, restart or not, though no two registrations overlapped and no
  write failed (`SessionRuns.ABackfillCanReviveADisplacedSession`). Any pointer write leaves its row right if and only if
  the version it writes and the list by then agree on the session (`SessionResolution.AWriteIsRightIff`).
* **A look-up can outlive a forget.** `getAgentForSession` can read the pointer row before a claim deletes it and remember the
  session after the claim has forgotten it, so that a displaced session resolves from memory
  (`SessionRuns.ALookUpCanOutliveAForget`). A session that is in no map, row, list or call in flight stays forgotten until
  it registers (`SessionMemory.ForgottenForGood`).
* **An "unbound" entry does not unbind.** Pushing one without `supersedes` is admitted and leaves the live binding
  live (`Charter.OnlySupersedingEndsABinding`).
* **A backfill that reports no truncation need not be complete.** The store hands out at most 500 rows at once
  (`hub/src/storage-substrate/memory-substrate.ts:208`). With a page size of zero, or of 501 over 501 agents, it reports
  `truncated=false` and has missed an agent (`Paging.APageOfNoneReadsNothing`). If every page can be listed the report
  means completeness exactly if the page size is from 1 to 500 or all agents fit into the one page read
  (`Paging.BackfillIsCompleteIff`). If a page cannot be listed, the report is `truncated=false` as well
  (`Paging.AnAbortLooksComplete`).
* **A plan that passed validation can fail halfway.** Validation looks at every step as things stand before any of them
  is taken, so a step can spoil a later one (`Executor.AValidPlanCanFailHalfway`). A validated plan succeeds exactly if
  each step is compatible with those before it, which the plan alone tells (`Executor.PlansSucceedIff`).
* **`mintGrant` can fail to supersede the prior grant after the new row exists.** A revoke can get to the prior's barrier
  first (`RailRuns.AMintCanFailToSupersede`, and from any such point `RailRuns.ARevokeCanComeFirst`). The supersede lands if
  and only if the prior is still active when the mint takes its barrier (`RailMethods.Hub.MintGrant`).
* **Racing charter appends lose one another.** The comment at
  `hub/src/entities/constitution-repository-substrate.ts:252-260` relies on the plan executor to make amendments one at a
  time. If two do race, the later version drops what the other added, exactly if some link on the way back from it passes
  over the other (`CharterRaces.LostIffPassedOver`), and a link does that exactly if the other is numbered above every
  version its caller had seen (`CharterRaces.PassedOverIffUnseen`).
* The note at `hub/src/entities/class-grant.ts:71-73` dates re-presentation from the mint; the code dates it
  from the ratification, and the model follows the code.

## Model

| member | source | states |
|---|---|---|
| Decisions.TransformGrows | hub/src/entities/decision-repository-substrate.ts:237-419 | every verb keeps the phase fields in their phases, never rewrites what was raised, freezes class, route and plan once routed, and leaves terminals alone |
| Decisions.DwellIsConserved | hub/src/entities/decision-repository-substrate.ts:112-119 | with a forward clock a transition keeps the dwell buckets adding up to the decision's age |
| Lives.LivesTell | hub/src/entities/decision-repository-substrate.ts:237-452 | each field of a row is what the latest, or first, verb that speaks of it said, and each dwell bucket is the time the verbs left in its phase |
| Lives.EveryRowIsALifeTold | hub/src/entities/decision-repository-substrate.ts:237-452 | in every reachable state every decision row is told so by some life of allowed verbs, however many callers raced |
| Decisions.WalksEnd | hub/src/entities/decision-repository-substrate.ts:54-73 | no walk of the phase table makes more than four moves or leaves a terminal, and a phase without exits is a terminal and conversely |
| ClassGrants.CanonicalFormIdentifiesSpecs | hub/src/entities/class-grant-repository-substrate.ts:43-62 | two grant specs have one canonical form exactly if they differ in nothing but array order, null and empty parent kinds staying apart |
| RailSafety.StepSafe | hub/src/entities/decision-repository-substrate.ts:439-452 | no step of any call, wherever it falls among the others', breaks the invariant, what the other calls rely on, or a barrier they hold |
| RailTheorems.RoutedCaseIsFrozen | hub/src/entities/decision-repository-substrate.ts:306-335 | a routed decision is one case at every later moment of the run, is untouched while routed, and does not come back to routed once it has left |
| RailTheorems.EveryResolutionIsJustified | hub/src/entities/director-proof-repository-substrate.ts:283-352 | in every reachable state a resolution's claim is true of the stored rows: a confirmation bound field by field to decision, answer and plan and answered by a director's signal; a signal, the plan holding only unblock and approve; or a grant the route cites, of the decision's class, whose exclusions, parent kinds, allowed actions and reversibility all admit the case |
| RailAnswers.AnswersWereMeant | hub/src/entities/director-proof-repository-substrate.ts:72-134 | an answered confirmation was answered by a stored signal captured for that very confirmation |
| RailAnswers.OneWordSettlesOneDecision | hub/src/entities/director-proof-repository-substrate.ts:283-316 | two decisions resolved on the Director's direct word rest on two different signals, each given by a director |
| RailTheorems.GateVerdictHoldsAtCommit | hub/src/entities/decision-repository-substrate.ts:306-335 | if the resolve commit lands, the copy the gate saw and the committed row are the same case, the verdict is true of both, and a grant relied on is active with its barrier held |
| RailTheorems.NoAuthorityIsSpentTwice | hub/src/entities/director-proof-repository-substrate.ts:238-256 | over a whole run a decision is resolved at most once and no confirmation stands behind two resolutions, consumed or not |
| RailTheorems.DeadGrantsAuthoriseNothing | hub/src/entities/class-grant-repository-substrate.ts:169-205 | once a grant is revoked or superseded no later resolution is made under it, however old the gate's read |
| RailTheorems.ConfirmationsAreSpentOnce | hub/src/entities/director-proof-repository-substrate.ts:114-134 | among racing callers with retries a confirmation is answered at most once and consumed at most once, and its bound content never changes |
| RailTheorems.EveryGrantTracesToTheDirector | hub/src/policy/class-grant-policy.ts:32-69 | every grant was ratified by a decision truly resolved on the Director's word whose context binds this very spec, and is due by that decision's date |
| RailTheorems.OneGrantPerRatification | hub/src/entities/class-grant-repository-substrate.ts:105-122 | however mints race, a ratification yields one grant and its consumption row names it |
| RailTheorems.SupersedeChainsEnd | hub/src/entities/class-grant-repository-substrate.ts:98-141 | along supersedes links the version falls by one, so chains are finite and never circular |
| RailTheorems.SupersededOnceBySuccessor | hub/src/entities/class-grant-repository-substrate.ts:179-204 | supersededBy is set at most once and names a grant that supersedes this one at the next version |
| RailTheorems.DecisionsTerminate | hub/src/entities/decision-repository-substrate.ts:54-73 | in any run a decision starts raised, makes at most four moves along edges of the table, and never leaves a terminal |
| RailTheorems.RowsMatchTheirPhase | hub/src/entities/decision-repository-substrate.ts:237-419 | in every reachable row resolution, mergedInto and disposedReason are set exactly in their phases and the dwell is at least the age |
| RailTheorems.DwellAddsUpExactly | hub/src/entities/decision-repository-substrate.ts:112-119 | over a run whose clock never goes back the dwell buckets add up to exactly the time since creation |
| RailTheorems.BarriersAreGivenBack | hub/src/entities/class-grant-repository-substrate.ts:185-187 | a barrier that is held is held by a live call inside the section it guards: none leaks, however a call ends |
| RailCaptures.TrailRebuildsTheDecision | hub/src/entities/decision-repository-substrate.ts:187-201 | once nothing of it is missing a decision has its capture, which still equals what was raised, and replaying the curate records over its class, each starting from the class reached, gives the current class |
| RailCaptures.EveryDecisionIsCaptured | hub/src/entities/decision-repository-substrate.ts:187-201 | without crashes every decision has its capture as soon as its raiser is done |
| RailCaptures.CapturesAreNeverRemoved | hub/src/entities/curation-repository-substrate.ts:29-71 | a stored capture stays as it is, and records are only appended |
| RailCaptures.MergeIsOnRecord | hub/src/entities/decision-repository-substrate.ts:362-386 | a merged decision has exactly one merge record, naming its target, and it cites both captures if and only if the target's was stored when the merge read it and its own when it read that |
| RailRuns.AMergeRecordCanMissAStoredCapture | hub/src/entities/decision-repository-substrate.ts:371-386 | a run without crashes whose merge record cites one capture though both were stored when it was written |
| RailCaptures.MergeCitesBoth | hub/src/entities/decision-repository-substrate.ts:362-386 | it cites both whenever both were stored at some moment before the merge was committed |
| RailRuns.AMergeRecordCanCiteOne | hub/src/entities/decision-repository-substrate.ts:362-386 | a run without crashes, all calls done and both captures stored, whose merge record cites one |
| RailTrail.SelfDisposalIsOnRecord | hub/src/entities/decision-repository-substrate.ts:285-295 | a decision routed to its own disposal has exactly one such record, citing what the route cites |
| RailTrail.CurateAndDisposeAreOnRecord | hub/src/entities/decision-repository-substrate.ts:252-257 | a curated or disposed decision has its record, and no two records are of one act |
| RailTrail.WhichActsAreOnRecord | hub/src/entities/decision-repository-substrate.ts:134-143 | without crashes a finished act has its one record exactly if it is neither a blind curate nor an uncited self-disposal |
| RailCaptures.CurateIsRecordedIff | hub/src/entities/decision-repository-substrate.ts:237-257 | without crashes a finished curate act has its record if and only if the read before its loop had found the row |
| RailTrail.ACurateCanGoUnrecorded | hub/src/entities/decision-repository-substrate.ts:237-257 | a run without crashes in which a class changes and the trail is empty |
| RailTrail.SelfDisposalIsRecordedIff | hub/src/entities/decision-repository-substrate.ts:263-294 | without crashes a decision routed to its own disposal has its record if and only if its route does not give the empty string for a grant |
| RailRuns.ASelfDisposalCanGoUncited | hub/src/entities/decision-repository-substrate.ts:263-294 | a run without crashes in which such a route is committed and its record refused |
| RailMethods.OthersLeaveMeAlone | hub/src/entities/class-grant.ts:83-88 | while a call holds a grant's barrier nobody else writes that grant, and nobody moves the call |
| RailMethods.Hub.CasAttempt | hub/src/entities/decision-repository-substrate.ts:440-449 | one attempt either is one atomic transform as of its commit, or ends for a reason true of the row, or lost to another writer's commit |
| RailMethods.Hub.TryCasUpdate | hub/src/entities/decision-repository-substrate.ts:439-452 | an update that succeeds is one atomic transform of the row at the commit; giving up means that at all fifty attempts another commit of the row came first |
| RailMethods.Hub.Change | hub/src/entities/decision-repository-substrate.ts:237-297 | a verb succeeds only on a row in a phase the verb leaves from, and is refused only if the row at the end, or the checks ahead of it, say so; its trail record is there exactly if the curate call had read a row and a citation is not empty, names curator, basis and act, a class change with both classes, and cites the captures stored when it looked, a merge the other decision's too |
| VerbRules.OwedMeans | hub/src/entities/decision-repository-substrate.ts:252-396 | what each verb puts on record: by whom, why, and for a curate the class it changed from and to |
| RailMethods.Hub.ResolveDecision | hub/src/entities/decision-repository-substrate.ts:299-336 | a resolution records the answer and executor asked for with the authority the kind of proof implies, true of the stored rows, the grant active at the commit; a refusal says of the stored rows why: not there, not routed, or a proof that does not hold |
| RailMethods.Hub.UpdateConfirmation | hub/src/entities/director-proof-repository-substrate.ts:213-236 | whoever writes a confirmation found it unanswered, or consumable, at the moment of the commit; a refusal is true of the row at one of its clock readings |
| RailMethods.Hub.ConsumeConfirmation | hub/src/entities/director-proof-repository-substrate.ts:213-236 | a consumption found the confirmation unconsumed, unexpired and bound as expected, and changed nothing else of it; one that did not happen says why: missing, consumed, bound otherwise, expired, or overtaken at every attempt |
| RailMethods.Hub.MintSignal | hub/src/entities/director-proof-repository-substrate.ts:72-111 | the signal is stored in any case, and answers the confirmation it names only if it bound it; if not, the confirmation is missing, answered or consumed already, or was overtaken at every attempt |
| RailMethods.Hub.TransitionGrant | hub/src/entities/class-grant-repository-substrate.ts:169-205 | only an active grant is retired, under its barrier: it is, if and only if it is active when the barrier is taken |
| RailMethods.Hub.TransitionLoop | hub/src/entities/class-grant-repository-substrate.ts:189-205 | under the barrier the first attempt always lands: the retry budget is never used |
| RailMethods.Hub.MintGrant | hub/src/entities/class-grant-repository-substrate.ts:83-154 | a mint leaves the requested grant with its ratification spent on it, or says which check failed; it is refused as not ratified exactly if at the start the decision is missing, not resolved or executed, resolved on other than the Director's word, embeds the marker and hash of this spec nowhere in its context, or the spec is reversible-only and allows an irreversible action; superseding the prior one lands if and only if it is active when its barrier is taken |
| RailRuns.ARevokeCanComeFirst | hub/src/entities/class-grant-repository-substrate.ts:131-154 | from any point at which a mint is about to supersede an active grant, a revoke can come first and leave the new grant standing and the prior one not superseded |
| RailRuns.AMintCanFailToSupersede | hub/src/entities/class-grant-repository-substrate.ts:83-154 | a run without crashes in which that happens |
| Agents.CountersMatchHistory | hub/src/entities/agent-repository-substrate.ts:842-862 | epoch, current session, thrash count and restart ring are exactly what the history of committed writes says |
| Agents.FieldsMatchHistory | hub/src/entities/agent-repository-substrate.ts:1044-1253 | every other field is what the last write that speaks of it said: no write of one field disturbs another |
| Agents.ClaimReportsThePrevious | hub/src/entities/agent-repository-substrate.ts:832-835 | a claim reports as displaced exactly the claim before it, by session and epoch |
| Restarts.RestartCountIsExact | hub/src/entities/agent-repository-substrate.ts:836-841 | however claims race, at each committed claim restartCount is the number of claims in the 24 hours up to it, or 50 if there were more |
| Agents.AppendKeeps | hub/src/entities/agent-repository-substrate.ts:269-273 | a handshake leaves the list duplicate-free and at most eight long, the session last, every other session still there but, when eight others were there, the first; those left stand in the order they stood in |
| Agents.ListIsInOrder | hub/src/entities/agent-repository-substrate.ts:269-273 | over any history the list holds sessions in the order in which each was last enrolled since it was last off the list |
| Agents.EvictionTakesTheOldest | hub/src/entities/agent-repository-substrate.ts:269-273 | an enrolment that evicts takes the session enrolled longest ago of all then listed |
| Agents.RegisteredStaysTidy | hub/src/entities/agent-repository-substrate.ts:846-852 | the list stays so in every state of every history |
| Agents.DisplacedStaysOut | hub/src/entities/agent-repository-substrate.ts:846-852 | a displaced session is off the list until it registers itself anew |
| Agents.TeardownSparesTheReplacement | hub/src/entities/agent-repository-substrate.ts:1235-1253 | a teardown that writes an agent row comes only after its own session claimed the agent last, so never after a replacement's claim |
| Registry.NoLostUpdates | hub/src/entities/agent-repository-substrate.ts:803-920 | every reachable row is the outcome of its committed writes applied one after the other, none lost, and its list stands in the order of each session's last enrolment |
| SessionResolution.PointerShowsTheListWritten | hub/src/entities/agent-repository-substrate.ts:291-314 | in every reachable state, the backfill's writes included, a pointer row shows an agent's list as it stood at the version it was last written from |
| SessionResolution.AWriteIsRightIff | hub/src/entities/agent-repository-substrate.ts:402-421 | a pointer write of a claim, a handshake or the backfill leaves its row right if and only if the version it writes and the list by then agree on the session |
| SessionResolution.PointerIsRightIff | hub/src/entities/agent-repository-substrate.ts:291-314 | in every reachable state a pointer row is right if and only if the session came or went an even number of times since the version it was last written from |
| SessionResolution.PointerRowsAgree | hub/src/entities/agent-repository-substrate.ts:291-314 | through retries, evictions and restarts a pointer row is right once no write of it is outstanding, none was lost or overtaken by a change of the list, and no second agent used the session, whatever happened to other rows |
| SessionResolution.ResolutionSurvivesRestart | hub/src/entities/agent-repository-substrate.ts:928-992 | then a session nothing in memory knows resolves to the agent exactly if it lists the session and is not archived |
| SessionResolution.DisplacedSessionsResolveToNothing | hub/src/entities/agent-repository-substrate.ts:868-879 | and a displaced session resolves to nothing until it registers anew |
| SessionResolution.OverlappingWriters | hub/src/entities/agent-repository-substrate.ts:291-314 | two overlapping writers, their writes interleaved in any way: a row both owe is right exactly if the later registration wrote it last, a row one owes is right |
| SessionResolution.OutOfOrderAgreesIff | hub/src/entities/agent-repository-substrate.ts:291-314 | written in the wrong order all the agent's rows are right exactly if neither registration undid what the other did |
| SessionResolution.OverlappingClaimsDisagree | hub/src/entities/agent-repository-substrate.ts:868-870 | a claim and the claim that displaces it, written out of order, leave the displaced session's row naming the agent |
| SessionRuns.AnOverlapCanLeaveAStalePointer | hub/src/entities/agent-repository-substrate.ts:868-879 | a run after which, restart included, a displaced session still resolves |
| SessionRuns.ABackfillCanReviveADisplacedSession | hub/src/entities/agent-repository-substrate.ts:379-431 | another, in which no registrations overlap: the put of the backfill at boot comes after the claim's delete |
| SessionRuns.ALookUpCanOutliveAForget | hub/src/entities/agent-repository-substrate.ts:928-992 | another, in which no pointer row is wrong: a look-up remembers the session after the claim has forgotten it |
| SessionMemory.ForgottenForGood | hub/src/entities/agent-repository-substrate.ts:928-992 | a session in no map, pointer row, list or call in flight resolves to nothing at every later moment until it sets out to register |
| Breaker.PassesIffNoFourInAWindow | hub/src/state.ts:1737-1746 | an attempt passes exactly if the fourth back from it is more than a window older |
| Breaker.DisplacementHistory.RecordAndCheck | hub/src/state.ts:1741-1746 | the array shifted in place is the window of the whole log of attempts |
| ClaimBreaker.ThreeDisplacementsAMinute | hub/src/entities/agent-repository-substrate.ts:818-830 | however claims race and retry, no closed minute holds four accepted claims of an agent stored online |
| RegistryMethods.AppendRegisteredSession | hub/src/entities/agent-repository-substrate.ts:269-273 | the filter and the shifting loop compute that append: of eight others the first goes, and the order of the rest is kept |
| RegistryMethods.PushRestart | hub/src/entities/agent-repository-substrate.ts:837-841 | the shifting loop and the count compute the restart ring and its recent entries |
| RegistryMethods.Seat.Attempt | hub/src/entities/agent-repository-substrate.ts:1103-1117 | one attempt is one atomic write as of its commit, or did not apply, or lost to a write in between |
| RegistryMethods.Seat.AssertIdentity | hub/src/entities/agent-repository-substrate.ts:585-795 | a handshake leaves a first row, offline and unclaimed with its session listed, or a row refreshed with nothing that a claim sets touched; losing means that at both attempts another write of the row came first |
| RegistryMethods.Seat.Reconcile | hub/src/entities/agent-repository-substrate.ts:291-314 | undisturbed, the loops put every addition and delete every eviction; the maps then name the new session and forget the displaced one |
| RegistryMethods.Seat.ClaimSession | hub/src/entities/agent-repository-substrate.ts:803-920 | a claim returns the number of claims before it plus one and the previous claim as displaced, and leaves the row in the next epoch, its session current and last on the list, the displaced one off it, online and idle since then; failing, it says which of three reasons, each true of the rows and the breaker's window |
| RegistryMethods.Seat.RecordThrash | hub/src/entities/agent-repository-substrate.ts:1103-1117 | the count returned is the marks since the last reset, this one included; giving up means that at all five attempts another write of the row came first |
| RegistryMethods.Seat.ResetThrash | hub/src/entities/agent-repository-substrate.ts:1122-1135 | the count returned is the marks cleared; zero means nothing to clear, no agent, or another write coming first at all five attempts |
| RegistryMethods.Seat.MarkAgentOffline | hub/src/entities/agent-repository-substrate.ts:1235-1253 | it writes only an agent whose current session at the commit is the one torn down, undisturbed exactly if it is, and forgets the session; if it does not write, there is no such agent, the session is not current, or another write came first |
| RegistryMethods.Seat.GetAgentForSession | hub/src/entities/agent-repository-substrate.ts:928-992 | undisturbed, it answers the agent memory has for the session, else the stored agent its pointer row names unless archived, else none, and remembers just what it answers |
| Networking.HubNetworking.CleanupSession | hub/src/hub-networking.ts:867-949 | among other callers: re-entry does nothing; a teardown evicts the session and nothing else of this process; a displaced one does nothing to the registry but forget the session; undisturbed, any other takes an agent offline exactly if the session is its current one |
| Networking.HubNetworking.EvictThenLateCallbacks | hub/src/hub-networking.ts:867-949 | an eviction and any number of late callbacks, anything at all going on meanwhile, take no agent offline in the session's name but after it has claimed that agent anew |
| Networking.TeardownsComeAfterClaims | hub/src/entities/agent-repository-substrate.ts:1235-1253 | in any run, once a session is no agent's current one, every teardown of it that is written follows a new claim by it |
| StagedActions.Thread.ApplyStagedActionOps | hub/src/state.ts:1624-1686 | the list goes from edit to edit: a stage appends, a revise settles the first entry with its id and appends its successor, a retract settles; it stops at the first edit whose id no entry has or whose first such entry is no longer staged, and the verdict says which |
| StagedActions.OutcomeIsPlay | hub/src/state.ts:1624-1686 | a call's outcome is a play of accepted edits, so the laws below hold after every call, thrown or not |
| StagedActions.LineageHolds | hub/src/state.ts:1646-1667 | after any edits ids number the entries, each revision descends from one earlier revised entry of its kind, each revised entry has a revision, and none has two |
| StagedActions.EditsOnlyAddAndSettle | hub/src/state.ts:1630-1685 | an edit never shortens the list nor touches an entry that is no longer staged, and changes the status of just the one it names; what it adds is staged and carries the caller's payload |
| StagedActions.StagedIsStagesLessRetracts | hub/src/state.ts:1630-1685 | the staged entries number the accepted stages less the accepted retracts |
| Charter.OrgCharter.BindAxiom | hub/src/entities/constitution-repository-substrate.ts:189-228 | each outcome has its exact condition; the row appended carries on from the last one, with both sections as they were, every earlier binding as it was but the first live one of the axiom if superseded, and the new binding with what the input gives; a refusal for a live binding has used up a version number |
| Charter.OrgCharter.AmendCharter | hub/src/entities/constitution-repository-substrate.ts:230-243 | the row appended carries on from the last one, the named section reads the text with who ratified it on what proof, and the bindings and the other section are those of the last row |
| Charter.BindKeepsOneLive | hub/src/entities/constitution-repository-substrate.ts:203-212 | an admitted bind keeps at most one live binding of each axiom |
| Charter.BindTouchesOneBinding | hub/src/entities/constitution-repository-substrate.ts:203-226 | a bind adds one entry and changes at most one other, from bound to superseded, of the same axiom |
| Charter.OnlySupersedingEndsABinding | hub/src/entities/constitution-repository-substrate.ts:203-226 | an admitted bind of whatever status ends the live binding exactly if it supersedes |
| Charter.LineageVisitsEveryVersion | hub/src/entities/constitution-repository-substrate.ts:255-281 | from the current version supersedes leads back through every version, newest first |
| CharterRaces.RowsAreEditsOfTheirBase | hub/src/entities/constitution-repository-substrate.ts:255-281 | however appends race, a row is its base with just its own edit, written out as for the serial charter, and the base the highest version there when its caller read |
| CharterRaces.LostIffPassedOver | hub/src/entities/constitution-repository-substrate.ts:255-281 | an append is lost to a later version if and only if a link on the way back from that version passes over it |
| CharterRaces.PassedOverIffUnseen | hub/src/entities/constitution-repository-substrate.ts:255-281 | a link passes over an append exactly if it is numbered above all that the later one's caller had seen |
| CharterRaces.SameBaseLosesOne | hub/src/entities/constitution-repository-substrate.ts:255-281 | of two appends made on one version the higher has lost the lower |
| Constitution.ConstitutionStore.Attempt | hub/src/entities/constitution-repository-substrate.ts:69-154 | a swap to another sha commits exactly if it is unfenced or names the served sha, over nothing exactly if no sha is expected; a stamp exactly if its sha is served and its time is later; each refusal has its exact condition; the committed row has the candidate's content and times, its createdAt that of the row it replaces |
| Constitution.ServedCameOfAFencedSwap | hub/src/entities/constitution-repository-substrate.ts:103-121 | over a run what is served came of the last committed swap, whose fence was absent or named just the sha it replaced |
| Constitution.ResyncsChangeNothing | hub/src/entities/constitution-repository-substrate.ts:103-108 | any number of swaps to what is served change nothing, and are refused under another manifest hash |
| Constitution.HealthRisesBetweenSwaps | hub/src/entities/constitution-repository-substrate.ts:130-154 | between swaps the content stands still and lastVerifiedAt never decreases |
| Constitution.OneSwapPerSha | hub/src/entities/constitution-repository-substrate.ts:112-114 | of all swaps fenced on one sha at most one commits until a swap has brought that sha back |
| Constitution.BirthIsKept | hub/src/entities/constitution-repository-substrate.ts:115-121 | createdAt survives every swap and stamp |
| Paging.ListAll | hub/src/entities/curation-repository-substrate.ts:79-89 | the pages put together are the whole kind, each row once and in order |
| Paging.Backfiller.Backfill | hub/src/entities/agent-repository-substrate.ts:379-431 | it reports what the scan reports, has written a pointer for every session of every agent read that is not archived, and a correct one for every session if it read all agents |
| Paging.BackfillIsCompleteIff | hub/src/entities/agent-repository-substrate.ts:379-431 | with every page listed, truncated is reported exactly if the pages up to the guard were full, and else all agents were read exactly if the page size is one the store grants or they fit into one page |
| Paging.AnAbortLooksComplete | hub/src/entities/agent-repository-substrate.ts:424-430 | a page that cannot be listed ends the scan with the same report, exactly the pages before it read |
| Paging.APageOfNoneReadsNothing | hub/src/entities/agent-repository-substrate.ts:379-431 | a page size of 0, and one of 501 over 501 agents, report no truncation and miss an agent |
| Executor.Execution.ValidatePlan | hub/src/entities/decision-executor.ts:62-125 | a plan passes exactly if each step is a known action on a target in the state it needs, a charter step on required evidence; otherwise the first step that does not is named, with the fault that is true of it, and nothing has changed |
| Executor.Execution.ExecutePlan | hub/src/entities/decision-executor.ts:131-156 | among others, every step is taken in turn whatever became of those before it, every known action's result is pushed, and the outcome is a success exactly if each step was |
| Executor.Execution.CarryOut | hub/src/policy/director-proof-policy.ts:433-456 | a resolved decision ends executed exactly if every step succeeded, and else stays resolved with the failure bound to it |
| Executor.PlansSucceedIff | hub/src/entities/decision-executor.ts:62-156 | while others keep away from what it names, a validated plan succeeds throughout exactly if no target is acted on twice, no binding meets a live one, and the effects' own limits are kept |
| Executor.TakenIsTold | hub/src/entities/decision-executor.ts:131-156 | what stands after successful steps is told by the plan alone: which items run, which proposals are approved, which axioms are bound |
| Executor.CharterStepsWrite | hub/src/policy/director-proof-policy.ts:340-380 | a bind or amend step of a checked plan succeeds exactly if the charter has room, it does not refer to itself and clashes with no live binding; it then appends one row with the status, links or section its parameters name, ratified by the decision on the proof |
| Executor.SectionsAreTold | hub/src/entities/decision-executor.ts:131-156 | after successful steps each section of the charter reads as the last step to amend it says, and as at first if none does |
| Executor.EffectsAreConfined | hub/src/entities/decision-executor.ts:18-24 | over a whole plan however far it gets, among others who keep away from what it names, a named item moves only if it was blocked on this decision, a named proposal only from submitted to approved, and the charter only grows |
| Executor.AloneEffectsAreConfined | hub/src/entities/decision-executor.ts:18-24 | and with nobody else about nothing but named targets has moved |
| Executor.AValidPlanCanFailHalfway | hub/src/entities/decision-executor.ts:11-19 | a plan that passes validation, fires its first step, and fails at its second |

## Left out

- Postgres, HTTP, SSE delivery, webhooks, timers, logging and the envelope encoding of rows: rows are flat values in an abstract store.
- The policy layer: roles and identity stamping are inputs. Of it only the mint check and the use of the barrier are modelled.
- The shared counter: ids are given by the steps that use them; its own race is not modelled. The charter's version numbers are drawn from one.
- Executor.PlansSucceedIff: for plans whose targets others leave alone meanwhile; if they do not, each step is judged by the targets it meets.
- Executor.Execution.CarryOut: the two writes to the decision that follow are the transforms of a decision nobody else writes; a lost one is covered by the rail's loop.
- Executor.Execution.ExecutePlan: of work items, proposals and the entities an approval creates, only what the effects look at is modelled; parameters of a plan are strings, and a store that is not wired is not modelled.
- The arrival surface's compare-and-swap and marks: the same loop as the one proved here, with one-branch transforms.
- Liveness recomputation, component states, labels, advisory tags, pulse and error rings, the touch rate limit, and role and host checks of a handshake: fields no property here reads. A step that the source would skip for such a reason is a step not taken.
- `deleteAgent`: it leaves pointer rows behind, and the reaper archives instead.
- The file history of the constitution (`snap-<sha>` rows): best effort, read by nothing modelled here. An unparseable `verifiedAt` is not modelled either.
- Rail.DoReadOwnRaw: the paged scan in which a capture is looked for is one read, and so is that of Rail.DoReadTargetRaw.
- Registry.Attempted: the breaker's clock reading and the claim's are one reading.
- RailMethods.Hub.ResolveDecision: waits for a barrier a bounded number of times and then gives up, where the source waits on.
- RailMethods.Hub.TransitionGrant: the same bound on waiting; what follows the taking of the barrier is not affected.
- RegistryMethods.Seat.Reconcile: the pointer rows at its end are stated for a caller nobody disturbs; among others they are as SessionResolution.PointerIsRightIff says.
- RegistryMethods.Seat.GetAgentForSession: the answer is stated for a caller nobody disturbs; among other callers only the agent rows and pointer rows are covered, by the registry's theorems, and not the map in memory.
- Paging.Backfiller.Backfill: states the case in which every write succeeds and nobody else writes (among others its puts are the registry's `Refill` calls, each of one session of an agent as listed), with its bounded concurrency as a plain order of writes; the scan has no sort, and one stable order is taken for granted.
- Charter.OrgCharter.BindAxiom: amendments are serial here, as the executor makes them; appends that race are in CharterRaces.
- SessionResolution.PointerRowsAgree: a sufficient condition; the exact one, in every state, is in SessionResolution.PointerIsRightIff.
- Networking.HubNetworking.EvictThenLateCallbacks: begins when no agent has the session for its current one; of a session another agent still has, only what the displaced cleanup itself does is stated.
- Blank reasons are recognised by the whitespace that JavaScript's `trim` removes, as `Rail.Space` lists it.
