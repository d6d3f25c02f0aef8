# A verified model of the coordination lab

Independent agents issue refunds and credits for a support case through two services that share no
transaction. A coordinator forces their steps into a declared order, a reservation authority may
stand between them and the money, a projector folds published events into a lagging view, and a
reconciler and an oracle look at the result. This project models that system in Dafny and proves
what it guarantees over every schedule, every interleaving, every stale read and every crash, and
exactly where a guarantee stops.

Money is in integer cents. A database transaction is one step, or two where the code reads and
writes without a lock. A run is any sequence of events; an event that cannot happen in a state
leaves it alone, so a theorem about `Exec(...)` is about all runs.

| file | models |
|---|---|
| `Schedules.dfy`, `BarrierSpec.dfy`, `Coordinator.dfy`, `BarrierRuns.dfy` | the schedule, the barrier's locked sections, the barrier and `/await` as objects, every interleaving of one declared run |
| `Control.dfy`, `ControlRuns.dfy`, `ControlFacts.dfy` | the reservation authority as an object; its transactions interleaved, with the case lock and row locks they hold; the two compared, and when a case comes to count too much |
| `Stores.dfy`, `EffectService.dfy` | the refund and credit services: concurrent transactions with unique constraints, and the service as an object |
| `Agents.dfy`, `AgentFacts.dfy` | the diligent and the model-driven agent: the two programs, and the automata they are proved to follow |
| `Ceiling.dfy`, `Overspend.dfy`, `SoloRuns.dfy`, `Scenes.dfy`, `Breaches.dfy`, `Reruns.dfy`, `Exposure.dfy` | any number of agents against the authority and both stores: the ceiling theorem, a breach for each condition it needs, and what holds with no authority |
| `Projection.dfy`, `CrmProjector.dfy`, `ProjectorRuns.dfy` | projectors with crash points, the projector as an object, and the object as a run of the machine |
| `Reconciler.dfy`, `Detection.dfy`, `Silence.dfy`, `Oracle.dfy`, `ProcGuard.dfy` | the five checks and what their report is worth, the judge, the ancestor walk |
| `Base.dfy`, `Sorting.dfy` | options, sums, lookups by key, and sorted lists |

The main results, hardest first.

- When every agent reserves first and a key means one operation, run once or again, committed refunds
  plus credits of a case exceed its ceiling by at most what was spent under holds that expired, were
  released, or were committed only after that, in every run of any number of agents
  (`Overspend.CommittedMoneyBounded`). From it: the ceiling holds outright when nothing expires, a
  model's key is used by no other run, no reply of a model both issues and declines, and an operation
  whose create finally failed has no effect (`Overspend.CeilingHolds`), also when diligent agents are
  run again after a crash. For model-driven agents lost acknowledgements are harmless too
  (`Overspend.CeilingHoldsForModels`), because then every effect stands under a hold that still counts
  (`Overspend.EffectsAreLiveBacked`).
- Each condition is needed: a run breaks it and commits both amounts of two agents, each up to the
  whole ceiling. In `Breaches`: a hold that expires, a commit after expiry, a lost acknowledgement, an
  indecisive reply in either order, a model that does not reserve. In `Reruns`: a key shared by two
  operations, which breaks even the bound, a model run again after it declined, and an agent run again
  after a create that truly failed, which leaves the given-up operation with an effect. Only in the
  first of them does the reconciler name the money; the others leave no hold EXPIRED.
- With deadlines, under the conditions of the ceiling theorem on keys, replies and failed creates, every
  overspend is named by SPENT_EXPIRED_HOLD findings or was committed after it had lapsed
  (`Detection.UnreportedOverspendIsRevived`); without late commits the findings name all of it
  (`Detection.EveryOverspendIsReported`, attained by `Breaches.ExpiredSpendingIsNamed`). A breach
  without expiry leaves the report empty (`Silence.SilentBreach`).
- A case comes to count more without a grant exactly when a RELEASED or EXPIRED hold of it is
  committed (`ControlFacts.CountRisesIffDeadHoldCommits`).
- With or without the authority, and whatever keys are shared or run again, exposure is staleness: what
  a case holds beyond its ceiling is at most what every agent that asked for some write of it had not
  seen (`Exposure.ExposureIsStaleness`, attained by `Exposure.ExposureIsTight`).
- The barrier releases a prefix of the declared steps whatever races, and fails closed; every arrival
  order of a schedule completes in the declared order (`BarrierRuns.ReleaseOrderIsDeclaredPrefix`,
  `BarrierRuns.FailClosed`, `BarrierRuns.EveryArrivalOrderCompletes`).
- The projection is exactly-once and conserves money across crashes, redelivery and several
  projectors (`Projection`, `CrmProjector.RedeliveryCountsNothingTwice`).
- In any state whatever, the reconciler reports exactly what is wrong of its five kinds
  (`Detection.ReportIsExactlyWhatIsWrong`).

## Where the code and its documentation disagree

The model follows the code.

- docs/INVARIANT-CATALOG.md:134-140 calls R2 (COMMITTED and RELEASED are final) hard. `release` and
  `commit` read and update without a lock, so a release that read before a commit undoes it
  (`ControlRuns.RacingReleaseUndoesCommit`); `ControlRuns.EndingsKeptIffNotOvertaken` gives the exact
  condition, and R2 holds when each hold has one owner at a time.
- `commit` refuses only RELEASED (apps/control/main.py:172), so an EXPIRED hold can be committed after
  its budget was granted again (`ControlFacts.LateCommitExceedsCeiling`). With the agents and stores
  around it that is a breach, and it erases the finding that would have named the money
  (`Breaches.LateCommitOverspends`).
- docs/INVARIANT-CATALOG.md:43-44 has the ceiling held by the reservation authority. A replayed key is
  answered granted whatever its hold's state is (apps/control/main.py:84-91), so a grant may come with
  no budget behind it, exactly when the key's row is RELEASED, EXPIRED or past its deadline
  (`ControlFacts.GrantsNothingIffKeyIsDead`), and a rerun breaks the ceiling (`Reruns.RerunOverspends`).
- agents/diligent/policy.py:169 takes a create that raised to mean that no effect landed; when only the
  acknowledgement was lost it frees budget that was spent (`Breaches.LostAcknowledgementOverspends`).
- apps/crm/projector.py:37-43 describes the lag as staleness. `void` publishes nothing, so the lag is
  unfolded money less voided money (`Projection.LagIsUnfoldedLessVoided`).
- `void` logs COMMITTED as the state it left, also for a row that was VOIDED already
  (`Stores.FromStateTrueIffNotVoidedTwice`, `EffectService.DoubleVoidMisreports`).
- A model's reply that declines and then issues creates its effect under a hold it just released, which
  breaks the ceiling (`Breaches.IndecisiveReplyOverspends`); exactly those replies create after a release
  (`AgentFacts.CreatesAfterReleaseIffIssueAfterDecline`). The other order breaks it when the commit in
  between fails, because agents/diligent/clients.py:130-135 ignores its status
  (`Breaches.IssueThenDeclineOverspends`). A model once refused forgets every later grant
  (`AgentFacts.RefusedNeverActs`), and one refusal is enough (`AgentFacts.RefusalShutsOut`).

## Model

| member | source | states |
|---|---|---|
| `Schedules.KeysDistinct` | apps/coordinator/schedule.py:38-50 | repeated steps get distinct occurrence keys |
| `Schedules.DeclaredIffBelowCount` | apps/coordinator/schedule.py:45-50 | a key is declared exactly when its occurrence is below the number of times its step is declared |
| `Schedules.Schedule.constructor` | apps/coordinator/schedule.py:32-50 | the occurrence list and declared set built by the loop are those of the position-by-position numbering |
| `Schedules.Schedule.KnownActors` | apps/coordinator/schedule.py:56-64 | exactly the actors named in some step |
| `Schedules.Schedule.CurrentStep` | apps/coordinator/schedule.py:70-76 | the key at the pointer, or none past the end |
| `Schedules.Schedule.Arrive` | apps/coordinator/schedule.py:78-94 | refused exactly when the step has already arrived as often as it is declared; otherwise counted, and told whether its key is at the pointer |
| `Schedules.Schedule.Advance` | apps/coordinator/schedule.py:96-97 | moves the pointer by one, at the end too, and nothing else |
| `Schedules.ExpectedReleaseOrder` | schedules/runner.py:71-81 | the runner's own numbering is the coordinator's, for every step list |
| `BarrierSpec.CascadeRestores` | apps/coordinator/barrier.py:168-179 | the cascade terminates, keeps the barrier consistent and leaves no parked waiter at the pointer |
| `BarrierSpec.CascadeOnlyReleases` | apps/coordinator/barrier.py:168-179 | the cascade only releases: it parks, leases and aborts nobody and sets exactly the events of those it took out |
| `BarrierSpec.ArriveKeeps` | apps/coordinator/barrier.py:87-99 | every arrival keeps the barrier's invariant |
| `BarrierSpec.ArriveAnswers` | apps/coordinator/barrier.py:87-99 | what an arrival is told is what happened: released means recorded, parked means newly parked with its lease, anything else changed nothing |
| `BarrierSpec.ArrivalIsTakenIn` | apps/coordinator/barrier.py:87-99 | a declared arrival is always taken in, early or not: counted, released if it is at the pointer, newly parked otherwise; undeclared means arrived as often as declared |
| `BarrierSpec.LeaseLastsItsTtl` | apps/coordinator/barrier.py:95-99 | a lease lasts exactly its ttl from the moment its waiter parked |
| `BarrierSpec.BeatBuysItsTtl` | apps/coordinator/barrier.py:118-125 | a heartbeat buys exactly its ttl again, for its own waiter alone |
| `BarrierSpec.AbortKeeps` | apps/coordinator/barrier.py:61-71 | an abort keeps the invariant; its waiters become lost steps |
| `BarrierSpec.UnparkKeeps` | apps/coordinator/barrier.py:101-107 | a timeout keeps the invariant; its step becomes a lost step |
| `BarrierSpec.PointerIsFirstMissingStep` | apps/coordinator/barrier.py:161-179 | every step before the pointer arrived and was not lost; the step at it has not arrived or was lost |
| `Coordinator.Barrier.constructor` | apps/coordinator/barrier.py:43-55 | starts in the initial state over its schedule |
| `Coordinator.Barrier.Abort` | apps/coordinator/barrier.py:61-71 | the first reason stays, nobody is parked or leased any more, every waiter's event is set |
| `Coordinator.Barrier.Enter` | apps/coordinator/barrier.py:87-99 | the first locked section refines the specified arrival, release cascade included |
| `Coordinator.Barrier.AdvanceLocked` | apps/coordinator/barrier.py:161-179 | the in-place loop refines recording the release and then the recursive cascade |
| `Coordinator.Barrier.TimedOut` | apps/coordinator/barrier.py:101-107 | takes out this waiter and its lease, nothing else |
| `Coordinator.Barrier.Heartbeat` | apps/coordinator/barrier.py:118-125 | refreshes exactly when the key holds a lease, by the ttl it was granted with |
| `Coordinator.Barrier.Reap` | apps/coordinator/barrier.py:127-138 | finds exactly the lapsed leases; if there is one the run is aborted, an earlier reason stays and every waiter's event is set; otherwise nothing changes |
| `Coordinator.Await.Handle` | apps/coordinator/main.py:116-180 | exactly the malformed requests get 400; every answer but 200 and the injected 500 leaves the run aborted; those two mean the key was recorded; a run not aborted saw exactly one arrival |
| `Coordinator.Await.Woken` | apps/coordinator/barrier.py:113-116 | a woken waiter is told of a release only if its key was recorded, also when an abort overtook the wake-up |
| `Coordinator.Await.GaveUp` | apps/coordinator/main.py:161-163 | a timeout leaves the run aborted with nobody parked or leased and the release order as it was |
| `BarrierRuns.ReleaseOrderIsDeclaredPrefix` | apps/coordinator/barrier.py:148-179 | in every interleaving the release order is the first `pointer` declared steps with their occurrence numbers |
| `BarrierRuns.CompletedRunsAgree` | schedules/runner.py:71-81 | any two completed runs of a schedule released in the same order, the runner's expected one |
| `BarrierRuns.ScheduleExecutedIffComplete` | schedules/runner.py:177-195 | the runner's check passes exactly on completed runs |
| `BarrierRuns.NoDeadlock` | apps/coordinator/barrier.py:161-179 | if every declared step arrived and none was lost, the schedule is complete, nobody is parked, and every blocked thread has its event set |
| `BarrierRuns.EveryArrivalOrderCompletes` | apps/coordinator/barrier.py:87-116 | for every schedule, if its steps arrive once each in any order and nobody gives up, all are released in declared order, and each has had its 200 or its injected 500 or can wake |
| `BarrierRuns.WokenIsTold` | apps/coordinator/barrier.py:113-116 | a thread whose event is set wakes and is told of its release |
| `BarrierRuns.NeverReleasedAborts` | apps/coordinator/barrier.py:101-112 | a waiter that is never released gives up with 504 and aborts the run |
| `BarrierRuns.SilenceIsReaped` | apps/coordinator/barrier.py:127-138 | a waiter silent for its ttl brings the run down at the next scan |
| `BarrierRuns.AbortWakesEveryone` | apps/coordinator/barrier.py:61-71 | in every state after an abort each thread still blocked has its event set or is about to, and wakes to 409 |
| `BarrierRuns.RefusalsAbort` | apps/coordinator/main.py:116-180 | a request refused for its headers, or for a step that has arrived as often as declared, aborts the run |
| `BarrierRuns.ArrivalOrderIrrelevant` | apps/coordinator/barrier.py:87-99 | lossless runs with the same arrivals, in any order, have the same pointer, release order and parked set |
| `BarrierRuns.FailClosed` | apps/coordinator/barrier.py:61-116 | after an abort nothing is ever released, parked or leased again |
| `BarrierRuns.AnswersAreHonest` | apps/coordinator/main.py:151-180 | however wake-up, abort and timeout race, 200 or the injected 500 means recorded, and any other answer means aborted |
| `BarrierRuns.ScanFindsTheSilent` | apps/coordinator/barrier.py:127-138 | leases belong to parked waiters, and a scan finds exactly those silent for their ttl |
| `BarrierRuns.AttentiveRunIsNeverReaped` | apps/coordinator/barrier.py:118-138 | if every leased waiter beats within its ttl, no scan of the run ever aborts |
| `Control.ReservationService.ExpireDue` | apps/control/expiry.py:15-40 | exactly the due HELD rows become EXPIRED, and the count is theirs |
| `Control.ReservationService.Reserve` | apps/control/main.py:59-124 | reclaims every lapsed hold of every case, then answers: a known key its row; a fresh request a HELD row with its deadline exactly when it fits beside what the case counts; a refusal keeps the reclaiming, a rejected insert rolls it back |
| `Control.ReservationService.Release` | apps/control/main.py:127-157 | a COMMITTED hold is refused and unchanged; any other becomes RELEASED; a missing one is 404 |
| `Control.ReservationService.Commit` | apps/control/main.py:160-182 | a RELEASED hold is refused and unchanged; any other, EXPIRED included, becomes COMMITTED |
| `Control.ReservationService.ListReservations` | apps/control/main.py:185-194 | a new request would be granted at any later moment exactly when it fits beside the listed total less the holds lapsed by then |
| `ControlFacts.DueFromItsDeadline` | apps/control/main.py:110-112 | a hold is due from the moment it was granted plus its ttl on, never before, and without a ttl never |
| `ControlFacts.HoldStandsUntilItsDeadline` | apps/control/expiry.py:32-39 | after a grant in any table, a later request of the case finds it HELD and is refused what it takes before the deadline, and finds it EXPIRED from the deadline on |
| `ControlFacts.UntouchedCaseHasItsCeiling` | apps/control/main.py:92-108 | a case with nothing HELD or COMMITTED is granted exactly what is within its ceiling, whatever other cases hold |
| `ControlFacts.CasesDoNotWait` | apps/control/main.py:68-121 | reservations of different cases do not wait for each other, and of two with one key the later inserts nothing; of one case the second waits for the first; a rollback leaves nothing behind |
| `ControlFacts.UpdatesDoNotWait` | apps/control/main.py:139-182 | a release or commit waits only for a reservation that is expiring its very row |
| `ControlFacts.ListedTotalMeansRoom` | apps/control/main.py:68-118 | the split reservation grants exactly then, and the case then counts that total and the new hold |
| `ControlFacts.GrantsNothingIffKeyIsDead` | apps/control/main.py:77-91 | in every reachable idle state the answer is granted with a hold that counts nothing if and only if the key's row is RELEASED, EXPIRED, or HELD past its deadline |
| `ControlFacts.UninterruptedReserve` | apps/control/main.py:59-124 | the split reservation, when nothing interleaves, is the service object's transaction |
| `ControlFacts.UninterruptedRelease` | apps/control/main.py:127-157 | the split release, alone, is the service object's transaction, for every state and a missing id |
| `ControlFacts.UninterruptedCommit` | apps/control/main.py:160-182 | the split commit, alone, is the service object's transaction, for every state and a missing id |
| `ControlRuns.LiveTotalBounded` | apps/control/main.py:68-118 | over every run, HELD plus COMMITTED of a case is at most its ceiling plus the holds committed after they were released or had expired |
| `ControlRuns.OwnedHoldsKeepTheirEnding` | apps/control/main.py:139-182 | with one owner per hold, COMMITTED and RELEASED are final however SELECT and UPDATE interleave |
| `ControlRuns.EndingsKeptIffNotOvertaken` | apps/control/main.py:139-182 | in every reachable state a step breaks R2 if and only if it is an UPDATE whose row ended the other way since its SELECT |
| `ControlRuns.RacingReleaseUndoesCommit` | apps/control/main.py:139-157 | from any idle state with a HELD hold, a race frees a hold that was committed |
| `ControlFacts.OwnedTotalBounded` | apps/control/main.py:139-182 | with one owner per hold, a case counts at most its ceiling plus the holds committed after they had EXPIRED |
| `ControlFacts.CountRisesIffDeadHoldCommits` | apps/control/main.py:160-182 | in every reachable state a step that is not a grant raises what a case counts if and only if it commits a RELEASED or EXPIRED hold of it, by that hold's amount |
| `ControlFacts.LateCommitExceedsCeiling` | apps/control/main.py:167-182 | from the empty table: reserve, lapse, reserve in its place, commit the first; the case counts both amounts, each up to the whole ceiling |
| `Stores.RunKeeps` | apps/billing/main.py:89-161 | over every run with lost races and rollbacks: one row per key, one event per row, log sequences exactly 1..n per case, and the log rebuilds the table |
| `Stores.FreeSequenceIsNext` | libs/service_common.py:57-68 | a sequence number read earlier is free exactly when it is still the next one, so UNIQUE keeps the log gap-free |
| `Stores.CommittedTotalFromLog` | libs/service_common.py:71-102 | the committed total can be computed from the append-only log alone |
| `Stores.FromStateTrueIffNotVoidedTwice` | apps/billing/main.py:150-159 | a log row misreports its from_state exactly when its entity had been voided before |
| `EffectService.DoubleVoidMisreports` | apps/billing/main.py:138-161 | voiding any effect of any reachable idle store twice logs such a row |
| `EffectService.CreatesSideBySide` | apps/billing/main.py:102-131 | two creates that both began before either committed both land for different cases and keys; of one case or under one key the second writes nothing |
| `EffectService.RollbackLeavesNothing` | libs/outbox.py:21-33 | a transaction that rolls back leaves neither effect nor event |
| `Stores.OutboxStep` | libs/outbox.py:21-33 | an outbox keeps its events, gains at most one per step, and marks only what it is told to |
| `EffectService.Service.AppendDecision` | libs/service_common.py:71-102 | appends one row with the case's next sequence number |
| `EffectService.Service.Publish` | libs/outbox.py:21-33 | appends one event, not applied yet, in the caller's transaction |
| `EffectService.Service.Create` | apps/ledger/main.py:81-135 | after any create exactly one row bears the key; a replay writes nothing; a new effect, its log row and its event are written together |
| `EffectService.Service.Void` | apps/ledger/main.py:138-161 | voids the row and logs it without publishing, a second time as well |
| `EffectService.Service.ListEffects` | apps/billing/main.py:218-236 | exactly the rows of the case in id order, and the total of the COMMITTED and SETTLED ones, equal to what the log says |
| `Stores.Unapplied` | apps/billing/main.py:249-281 | exactly the unapplied events in scope, in increasing id order |
| `EffectService.Service.MarkApplied` | apps/billing/main.py:284-295 | marks that event or reports it missing |
| `EffectService.Service.RedeliverEvents` | apps/billing/main.py:298-315 | unmarks every event of the case and no other, and names those that were marked |
| `Agents.RunDiligent` | agents/diligent/policy.py:106-177 | for every sequence of answers, the whole list of calls: it stops after its read exactly when the amount does not fit, inclusive, after a refusal or an abandoned grant, and otherwise creates and settles; and it is the automaton |
| `Agents.CreateAndSettle` | agents/diligent/policy.py:154-177 | one create, or two if it raised and the agent retries, then the commit of the hold if one succeeded and its release if none did |
| `AgentFacts.GoesOnIffItFits` | agents/diligent/policy.py:125-150 | for every observed total, the automaton goes on exactly when total and amount are within the ceiling, inclusive |
| `Agents.DispatchTool` | agents/llm/policy.py:208-247 | for each of the five tools and every answer, which calls it makes, whether it raises or finishes, and which hold and refusal it leaves remembered; and it advances the automaton by one tool |
| `Agents.IssueTool` | agents/llm/policy.py:225-237 | a create, and the commit of the hold exactly when it succeeded |
| `Agents.RunReply` | agents/llm/policy.py:178-194 | the tool calls of a reply run in order up to the first exception; a decline finishes the turn, and so does an issue with no authority or under a hold the turn began with; nothing but a decline or an issue does |
| `Agents.RunTurn` | agents/llm/policy.py:155-196 | no model is an exception, an empty reply ends the run, a finishing tool ends it, and otherwise the model is asked again |
| `Agents.RunModel` | agents/llm/policy.py:139-199 | at most 6 replies are asked for whatever the model says; it hits its limit only after six turns or at a reply without tool calls; and it is the automaton |
| `AgentFacts.UndecidedModelIsAskedSixTimes` | agents/llm/policy.py:155-199 | a model that never finishes is asked again until its sixth reply and no more |
| `AgentFacts.FeedCareful` | agents/diligent/policy.py:131-177 | an agent with the authority creates only after a grant and names only holds it was granted |
| `AgentFacts.FeedSettles` | agents/llm/policy.py:227-244 | a diligent agent never both releases and commits; a model whose replies do not both issue and decline never both releases and creates |
| `AgentFacts.IndecisiveReplyCreatesAfterRelease` | agents/llm/policy.py:179-194 | the calls of an agent whose reply declines, then issues: it creates under a released hold |
| `AgentFacts.CreatesAfterReleaseIffIssueAfterDecline` | agents/llm/policy.py:227-244 | with a remembered hold and for every answer, a reply creates after releasing if and only if an issue is reached in it after a decline |
| `AgentFacts.RefusedNeverActs` | agents/llm/policy.py:185-186 | once refused without a hold a model never creates, commits or releases again, whatever it says |
| `AgentFacts.RefusalShutsOut` | agents/llm/policy.py:185-186 | one refused request brings a model there |
| `Ceiling.RunOwned` | agents/diligent/policy.py:156-167 | with or without the authority, each effect is one that some agent asked its service for |
| `Ceiling.RunTraced` | agents/diligent/policy.py:106-177 | with it, in every reachable state each hold and each effect is of an operation some run of which asked for it |
| `Ceiling.AnythingMayHappen` | agents/diligent/clients.py:60-135 | an agent may hear any total, refusal or exception at any call, a model may say anything, and what was sent may be served at any time |
| `Overspend.KeysUniqueAcross` | apps/billing/migrations/001_init.sql:6-17 | when a key means one operation, run once or again, it has at most one effect across both services, authority or not |
| `Overspend.CommittedMoneyBounded` | agents/diligent/policy.py:106-177 | when every agent reserves first and a key means one operation, run once or again, committed money exceeds the ceiling by at most what was spent under EXPIRED, RELEASED and revived holds, for every run; no hold is among two of these |
| `Overspend.OverspendIsExpiredOrRevived` | apps/control/main.py:167-182 | late commits included, every cent above the ceiling was spent under a hold that is EXPIRED or was committed after it had lapsed |
| `Overspend.OverspendIsExpiredHolds` | apps/control/expiry.py:15-40 | with deadlines, when every agent reserves first, models have their keys to themselves and decide in each reply, no hold is committed late and no operation whose create finally failed has an effect, every cent above the ceiling was spent under a hold now EXPIRED |
| `Overspend.CeilingHolds` | apps/control/main.py:59-124 | under the same conditions and with no deadlines, instead of no late commit, the ceiling holds for any agents that reserve first, any interleaving, staleness and crash, and diligent agents run again |
| `Overspend.EffectsAreLiveBacked` | agents/llm/policy.py:188-244 | under the conditions of the ceiling theorem every committed effect has a hold of its key, case and amount that is HELD or COMMITTED and was never freed in between |
| `Overspend.CeilingHoldsForModels` | agents/llm/policy.py:139-247 | for model-driven agents that each have their key it holds with lost acknowledgements too, whatever the models say one at a time, and every effect stands under a hold that counts |
| `Breaches.LostAcknowledgementOverspends` | agents/diligent/policy.py:168-174 | two reserving agents, one lost acknowledgement: both amounts are committed, each up to the whole ceiling, with nothing expired and nothing named |
| `Breaches.LateCommitOverspends` | apps/control/main.py:167-182 | the same when the first agent commits its hold after it lapsed and its budget was spent by the second |
| `Breaches.IndecisiveReplyOverspends` | agents/llm/policy.py:179-194 | the same when the first model declines and issues in one reply, no deadline and every answer truthful |
| `Breaches.IssueThenDeclineOverspends` | agents/llm/policy.py:227-244 | the same when it issues and declines in one reply and the commit in between is refused unnoticed |
| `Breaches.ExpiredSpendingIsNamed` | apps/reconciliation/worker.py:175-210 | an agent dies between its effect and its commit, its hold expires, another acts: the case holds both amounts and the findings name exactly the first |
| `Breaches.InformedModelOverspends` | agents/llm/policy.py:188-205 | without the authority a model that is told exactly what the case holds issues all the same: both amounts are committed |
| `Reruns.SharedKeyOverspends` | apps/control/main.py:84-91 | two agents in different services share a key: both amounts are committed, the one hold is HELD, and the money is above even the bound of the ceiling theorem |
| `Reruns.RerunOverspends` | apps/control/main.py:84-91 | a create truly fails and its hold is freed; the rerun is granted that hold and spends, its commit is refused unnoticed, and another agent is granted the same budget and spends it too; of the conditions only the one on failed creates is broken |
| `Reruns.SecondThoughtsOverspend` | agents/llm/policy.py:240-244 | the same for a model that declines and is run again, only its key not being its own |
| `Exposure.ExposureIsStaleness` | agents/diligent/policy.py:90-128 | with or without the authority and for any keys, if a case holds money then some write of it was asked for only by agents that had each missed, when it landed, at least what the case holds beyond the ceiling |
| `Exposure.ExposureIsTight` | agents/diligent/policy.py:116-128 | the bound is attained for whatever was observed: two agents commit the ceiling plus exactly what the second had missed, also under a shared key |
| `Exposure.FreshWritersNeverBreach` | agents/diligent/policy.py:116-128 | if each write of the case was asked for by some agent that had seen at least the truth, there is no breach |
| `Projection.RunKeeps` | apps/crm/projector.py:84-120 | the exactly-once, marking and conservation invariants hold in every run |
| `Projection.ExactlyOnce` | apps/crm/projector.py:92-118 | total and event count are those of applied_events, which has each event once and every event a source believes applied |
| `Projection.Conservation` | apps/crm/projector.py:98-114 | projection plus events not yet folded is always everything ever created, in money and in number |
| `Projection.DrainedWorldsAgree` | apps/crm/projector.py:61-76 | confluence: drained worlds in which the same was created hold the same projection, whatever the order, division and interruptions |
| `Projection.LagIsUnfoldedLessVoided` | apps/crm/projector.py:37-43 | the measured lag is unfolded money less voided money |
| `CrmProjector.Projector.ApplyEvent` | apps/crm/projector.py:92-119 | folds the event unless it was applied already, and marks it at its source either way |
| `CrmProjector.Projector.ApplySource` | apps/crm/projector.py:85-119 | folds exactly the listed events of one source; the count is what applied_events gained |
| `CrmProjector.Projector.ApplyPending` | apps/crm/projector.py:54-120 | an unknown name in `order` changes nothing; otherwise the sources are folded in order and the count is what applied_events gained |
| `CrmProjector.FoldingDrains` | apps/crm/projector.py:72-120 | any order that names both sources drains the scope, one case or all, to exactly what was created |
| `CrmProjector.FoldNamesInScope` | apps/crm/projector.py:72-91 | nothing else is touched: events out of scope, sources not named, and the projection of other cases stay as they were |
| `CrmProjector.FoldsInOrder` | apps/crm/projector.py:72-76 | the sources are folded in the order they are named |
| `CrmProjector.RedeliveryCountsNothingTwice` | apps/billing/main.py:294-315 | redelivery lists every event of the case again and no other; folding them marks all, projects exactly what was created, and changes nothing if all were folded before |
| `ProjectorRuns.FoldIsARun` | apps/crm/projector.py:85-119 | an uninterrupted projector is one run of the split machine |
| `ProjectorRuns.FoldNamesReachable` | apps/crm/projector.py:72-120 | so what is proved of every run holds of a projector that runs to its end |
| `ProjectorRuns.SecondFolderDies` | apps/crm/projector.py:92-111 | of two projectors that both saw an event not applied, the second to commit dies of the primary key and folds nothing |
| `Reconciler.CheckLag` | apps/reconciliation/worker.py:83-99 | one finding per source with unmarked events, none otherwise |
| `Reconciler.ReportedIffLagging` | apps/reconciliation/worker.py:83-99 | lag is reported for a source exactly when it has events of the case not marked, with their number |
| `Reconciler.PendingIffUnmarked` | apps/reconciliation/worker.py:83-99 | lag is reported exactly when an event of the case is not marked |
| `Reconciler.NoDrift` | apps/reconciliation/worker.py:102-130 | in every reachable state the drift check finds nothing: total and count are those of applied_events |
| `Reconciler.ReportedIffDrifting` | apps/reconciliation/worker.py:102-130 | in any state whatever, drift is reported exactly when total or count differ from what was applied, with all four numbers |
| `Reconciler.CheckDuplicateKeys` | apps/reconciliation/worker.py:133-149 | exactly the keys of the case that a service's table holds more than once, with their counts |
| `Reconciler.CheckOrphans` | apps/reconciliation/worker.py:152-172 | one finding per applied event of the case whose source has no such event |
| `Reconciler.ReportedIffOrphaned` | apps/reconciliation/worker.py:152-172 | a finding reports an orphan, and every orphan is reported |
| `Reconciler.CheckSpentExpiredHolds` | apps/reconciliation/worker.py:175-210 | one finding per EXPIRED hold of the case and service its effect landed in |
| `Reconciler.Reconcile` | apps/reconciliation/worker.py:213-220 | the report holds every finding of the five checks and nothing else |
| `Reconciler.OnlyLagAndExpiredHolds` | apps/reconciliation/worker.py:102-172 | in every reachable state drift, duplicate keys and orphans are never reported |
| `Reconciler.DrainedIsClean` | apps/reconciliation/worker.py:213-220 | drained and with no EXPIRED hold, the report is empty whatever the total and the ceiling |
| `Detection.ReportedIffSpentExpired` | apps/reconciliation/worker.py:189-209 | a SPENT_EXPIRED_HOLD finding reports an EXPIRED hold of the case whose effect landed there, and every such hold has one |
| `Detection.ReportIsExactlyWhatIsWrong` | apps/reconciliation/worker.py:213-220 | in any state whatever, the report holds exactly what is wrong of the five kinds, with its numbers |
| `Detection.InFlightIsNotReported` | apps/reconciliation/worker.py:189-209 | a HELD hold is never reported, also when its effect has landed |
| `Detection.UnreportedOverspendIsRevived` | apps/reconciliation/worker.py:175-210 | late commits included, committed money exceeds the ceiling by at most what those findings name and what was committed after it had lapsed |
| `Detection.EveryOverspendIsReported` | apps/reconciliation/worker.py:175-210 | when every agent reserves first, models have their keys to themselves and decide in each reply, no hold is committed late and no operation whose create finally failed has an effect, committed money exceeds the ceiling by at most what those findings name |
| `Silence.DrainingSilences` | apps/reconciliation/worker.py:213-220 | from any reachable state without running projectors or EXPIRED holds, draining leads to an empty report and the same committed total |
| `Silence.SilentBreach` | apps/reconciliation/worker.py:13-19 | any two amounts that each fit a ceiling and together exceed it reach a breach the report is silent about |
| `Oracle.RowsByIdempotencyKey` | oracle/sql.py:80-92 | each key is grouped with exactly its rows of the case, both services, in order |
| `Oracle.EntriesAreTheRows` | oracle/sql.py:80-92 | a group has one entry per row of its case and key, in table order, with its amount and state |
| `Oracle.DuplicatedEffectKeys` | oracle/invariants.py:40-51 | exactly the keys with two committed rows of the case, in one service or across both, each once and sorted |
| `Sorting.TextOrderIsLexicographic` | oracle/invariants.py:51 | that order is the lexicographic one |
| `Oracle.Evaluate` | oracle/invariants.py:54-92 | INCONCLUSIVE exactly on a duplicated effect, else VIOLATION exactly above the ceiling, with the totals and overage |
| `Oracle.TotalsOrdered` | oracle/sql.py:64-77 | settled <= committed <= obligated for rows in any state |
| `Oracle.TotalsPartition` | oracle/sql.py:64-77 | the totals differ by exactly the COMMITTED and the PENDING rows, and only VOIDED ones are not obligated |
| `Oracle.EffectsAreWhatIsCommitted` | oracle/invariants.py:40-51 | a row counts as a duplicate effect exactly when it counts into the committed total: COMMITTED or SETTLED, of the case |
| `Oracle.OneOperationPerKeyIsConclusive` | oracle/invariants.py:62-81 | when a key means one operation, run once or again, with or without the authority, the verdict is never INCONCLUSIVE and turns on the ceiling alone |
| `Oracle.HardenedRunsAreClean` | oracle/invariants.py:54-92 | under the conditions of the ceiling theorem the verdict is CLEAN |
| `ProcGuard.ProcessOwnership.Owns` | libs/procguard.py:41-51 | terminates on every table, cycles included, and is true exactly when some ancestor, the pid included, is claimed before a 0 is met |
| `ProcGuard.ProcessOwnership.Foreign` | libs/procguard.py:37-39 | the pids that are not owned, sorted, each as often as given |
| `ProcGuard.ProcessOwnership.Claim` | libs/procguard.py:26-27 | adds the pid and nothing else |
| `ProcGuard.ProcessOwnership.Release` | libs/procguard.py:29-35 | removes the pid and nothing else |
| `ProcGuard.DescendsThroughParent` | libs/procguard.py:41-51 | a process belongs exactly when it is non-zero and is claimed or is in the table with a parent that belongs |

## Left out

- Overspend.CommittedMoneyBounded: assumes that a key means one case, amount and service; for a key shared across the two services the code does not keep even this bound (`Reruns.SharedKeyOverspends`).
- Overspend.CeilingHolds: assumes that a model's key is used by no other run, because the code does not hold the ceiling otherwise (`Reruns.SecondThoughtsOverspend`); and that an operation whose diligent agent gave up on its create has no effect, because the code does not hold it otherwise, whether the effect landed unacknowledged (`Breaches.LostAcknowledgementOverspends`) or in a later run (`Reruns.RerunOverspends`).
- Overspend.CeilingHoldsForModels: excludes a reply that both issues and declines, because the code does not hold the ceiling otherwise, in either order (`Breaches.IndecisiveReplyOverspends`, `Breaches.IssueThenDeclineOverspends`).
- Overspend.OverspendIsExpiredHolds: assumes that no hold was committed after it had been released or had expired, because the code overspends otherwise (`Breaches.LateCommitOverspends`); without that the bound is `Overspend.OverspendIsExpiredOrRevived`.
- Detection.EveryOverspendIsReported: under the same assumptions; a late commit overspends without a finding (`Breaches.LateCommitOverspends`), by at most what `Detection.UnreportedOverspendIsRevived` says, and so does a lost acknowledgement (`Breaches.LostAcknowledgementOverspends`).
- ControlRuns.OwnedHoldsKeepTheirEnding: one owner per hold at a time, because R2 is false of the code otherwise; the exact condition is `ControlRuns.EndingsKeptIffNotOvertaken`.
- Exposure.ExposureIsStaleness: the agents of the case are diligent; a model-driven agent may issue whatever it has read, so no such bound holds of it (`Breaches.InformedModelOverspends`).
- Coordinator.Barrier.Abort: sets the waiters' events in the same step that clears them; `BarrierRuns` splits the two.
- Coordinator.Await.Handle: one declared run; declaring again or resetting while waiters are live, and the dumps in error messages, are not modelled.
- Reconciler.CheckDuplicateKeys: SQL groups rows in no particular order, so only which findings there are is stated; texts of findings are not modelled.
- EffectService.Service.Create: authorization happens before the transaction and is a parameter of nothing here; a denied request is a run without the event.
- Row ids are positions: the gaps that rolled-back inserts leave in BIGSERIAL ids, and with them an id order that differs from the commit order claimed in libs/outbox.py:39, are not modelled.
- libs/outbox.py's `claim_unapplied`, `mark_applied` and `pending_count`: no service calls them; the endpoints' own queries are modelled.
- The PENDING and SETTLED states are read but no code writes them, so no reachable row has them.
- HTTP, connection pools, tracing, request logs, tokens, the Reaper thread (its scan may fire at any time), and actor_id columns.
- Plans, entitlements, approvals and policy checks, the naturalistic and model schedules, the agent pool and the demo.
- Decimal arithmetic beyond whole cents, and 64-bit limits of ids and sequences.
