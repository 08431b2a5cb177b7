# The durable runtime kernel, modelled and proved in Dafny

The runtime keeps Threads of work, the Runs that execute them, a scheduler, external actions behind
approvals, shared-resource leases, deliveries and an inbox in one transactional store. Every write is one
transaction that appends events to a journal, folds Thread events into a stored projection and updates the
tables that belong to the change. This project models that kernel and proves what it promises for every
interleaving of calls.

How it is built, one module to a file:

- **Values and journal** (`Prelude`, `Vocabulary`, `Journal`, `Store`): identifiers, frozen inputs, table rows,
  events and the store. Name-based ids are injective constructors, artifacts are their content, time is an
  integer.
- **Transactions** (`Reducer`, `Snapshots`, `Scheduler`, `Actions`, `Resources`, `Lifecycle`): each public write
  as a function from a store to a new store or an error, with the branches, checks and constants of the source.
  `Err` means rolled back. The first five also prove what their own calls keep; `Scheduler` has the worker's two
  loops, `Codec` the stored form of a Thread.
- **Invariants** (`Integrity`, `Agreement`, `Books`): every transaction keeps replay, scheduler, action and lease
  invariants; Thread, Run and job agree; a message has one effect and deliveries form a chain. `Integrity` also
  proves that what works off a query's rows leaves nothing behind.
- **The state machine** (`Protocol`): a run is any sequence of calls at non-decreasing times. *Any* run may use
  the raw calls (`append_thread_events`, `enqueue_run`, `finish_run_claim`); a *closed* run uses the
  submission, inbox, worker, action and lease calls only.
- **What it means to a reader** (`Theorems`): statements about `ReachedByAny` and `Reached`, the stores such runs
  lead to, among them the exact conditions under which a call succeeds.
- **What a caller finds** (`Outcomes`): for each call the rows it leaves, said without the transaction's own
  functions, and for how long they hold: how an attempt ends and when it can be retried, what a receipt means, when a
  lease or a claim is over, what an update freezes and what it replaces.
- **The objects** (`Repository`): a class with one field per table. Its methods update the fields in place, with
  the loops and the rollbacks of the source, and each is proved to do exactly what its transaction says, or to
  change nothing; then the inbox coordinator, and a method that makes any call of the closed protocol on the
  object. `ActionGateway` drives the object through intent, approval, claim, provider and receipt, and bounds the
  provider calls under interleaving.
- **The worker host** (`WorkerHost`): several calls per claim, interleaved with everything else.
- **Producer and verifier** (`DecisionRecord`): the decision record's executor and the verifier that checks it.

What the proofs turned up about the code:

- The executor writes `str()` of a source's reference and revision ids while the verifier compares with the raw
  values, so a manifest with a numeric id executes and then never passes. `PassedIff` is the exact condition,
  on the title, the sections and the ids of the input (all strings, no source id twice); `NumericRevisionFails`
  is an input.
- A fixture section that is absent makes `_collect` raise, because the default it reads is a tuple; only null
  counts as empty (`CollectedIff`, and `AbsentSectionFails` at an input).
- Neither `claim_action` nor `record_action_receipt` looks at the Run. A Run that settles leaves its waiting
  intents claimable; cancelling a Run leaves none waiting and touches no other (`CancelIsComplete`), so that in
  both cases an intent that was executing comes back with a NOT_FOUND receipt and can be executed again.
  `ExecutionClaimIff` is the exact condition, `OnlyNotFoundReopens` the only way back, and `EndedRunExecutes`
  leads there from every store with a claimed intent of an ended Run.
- `decide_approval` may raise after another process has approved; the gateway then rereads the approval and runs
  the action, so the call that carries a denial calls the provider. `Decide` says exactly when, and
  `DenialAfterApproval` is the store.
- A denied or expired approval drops its intent without an event in the intent's own stream. The ledger of an
  intent therefore also reads the approval stream.
- A job whose last attempt lapses is failed by the sweep while its Run stays open: the one case in which an open
  Run has no live job (`JobMirrorsRun`).
- A Run submitted without frozen snapshots can be claimed: its start is refused and the attempt is spent. Bound
  snapshots are the one condition a live claim's start needs (`StartIff`).
- `renew_resource` and `heartbeat_run` accept a non-positive extension, which ends the lease at once
  (`RenewalLastsItsLease`, `HeartbeatLastsItsLease`). The invariants hold all the same.
- An action receipt that arrives after the claim's lease is refused although the provider was called;
  `ExecuteOrResume` states it, and the intent waits for reconciliation.

Assumptions: time never goes back between committed transactions (the source reads the clock before it begins a
transaction); a call is atomic; an id drawn as a uuid4 is new; a content hash names its content; `str()` of a
truthy JSON value that is no string is not empty (`PrintableItem`). A query without an order may answer in any
order, which is an explicit parameter.

## Model

| member | source | states |
|---|---|---|
| Repository.Call | src/super_agent_runtime/repository.py:86-97 | any closed call on the repository object moves it exactly as the state machine moves its store; an error leaves it as it was; a reached store stays reached |
| Repository.EmptyIsReached | src/super_agent_runtime/repository.py:68-77 | a new repository is a reached store |
| Repository.ReachedNext | src/super_agent_runtime/repository.py:86-97 | one more call leads from a reached store to a reached store |
| Repository.CallWork | src/super_agent_runtime/repository.py:1247-2272 | the worker calls on the object are the worker steps of the state machine; the claim query's answer is a best eligible row |
| Repository.CallDesk | src/super_agent_runtime/inbox.py:314-513 | submissions, bindings, messages and presentations on the object are the desk steps |
| Repository.CallGate | src/super_agent_runtime/repository.py:3637-4301 | the action and approval calls on the object are the gate steps |
| Repository.CallHold | src/super_agent_runtime/repository.py:2441-2598 | the lease calls on the object are the lease steps |
| Repository.InboxCoordinator.AcceptMessage | src/super_agent_runtime/inbox.py:314-405 | accepting a message stores its record with its effect, or nothing (`Outcomes.AcceptedUpdate`, `Outcomes.AcceptedTask`) |
| Repository.InboxCoordinator.ResolveRecord | src/super_agent_runtime/inbox.py:407-513 | resolving a route does what the decision asks for, or nothing |
| Repository.RuntimeRepository.constructor | src/super_agent_runtime/repository.py:68-77 | a new repository holds the empty store |
| Repository.RuntimeRepository.InsertEvent | src/super_agent_runtime/repository.py:4360-4420 | appends the event with the next number of its stream |
| Repository.RuntimeRepository.MaxSequence | src/super_agent_runtime/repository.py:4366-4373 | the query for the largest sequence of a stream |
| Repository.RuntimeRepository.EmitBatch | src/super_agent_runtime/repository.py:779-785 | a batch of Thread events is inserted, reduced and stored as a whole, or rolled back as a whole |
| Repository.RuntimeRepository.AppendEvents | src/super_agent_runtime/repository.py:743-785 | optimistic, idempotent append: repeats are recognised, reuse and stale revisions refused, else all events or none |
| Repository.RuntimeRepository.BindSnapshots | src/super_agent_runtime/repository.py:938-974 | binds the frozen inputs of a Run read at the given revision |
| Repository.RuntimeRepository.ReplayThread | src/super_agent_runtime/repository.py:1142-1154 | the replay loop is the fold of the reducer over the Thread's events |
| Repository.RuntimeRepository.Submit | src/super_agent_runtime/repository.py:545-733 | Thread, Run, snapshots and job appear together or not at all; a repeat changes nothing |
| Repository.RuntimeRepository.SweepExhausted | src/super_agent_runtime/repository.py:4979-5019 | fails exactly the listed jobs whose last lease ran out |
| Repository.RuntimeRepository.SelectNext | src/super_agent_runtime/repository.py:1272-1309 | one pass over the table in any order finds an eligible row that no other precedes, or none when none is eligible |
| Repository.RuntimeRepository.ClaimNext | src/super_agent_runtime/repository.py:1247-1358 | sweep, selection and claim in one transaction (`Outcomes.ClaimLastsItsLease`) |
| Repository.RuntimeRepository.Start | src/super_agent_runtime/repository.py:1360-1427 | starts the Run and its Thread under a live claim, or changes nothing |
| Repository.RuntimeRepository.Heartbeat | src/super_agent_runtime/repository.py:1429-1464 | extends a live lease, and no other |
| Repository.RuntimeRepository.SaveCheckpoint | src/super_agent_runtime/repository.py:1013-1054 | records the next checkpoint of the running Run under a live claim |
| Repository.RuntimeRepository.FinishExecution | src/super_agent_runtime/repository.py:1527-1724 | Run, Thread, attention and job settle together: completed, retried or failed (`Outcomes.SettlementLeaves`) |
| Repository.RuntimeRepository.BeginStep | src/super_agent_runtime/repository.py:1726-1861 | opens one step per ordinal and attempt, idempotently |
| Repository.RuntimeRepository.FinishStep | src/super_agent_runtime/repository.py:1863-1971 | ends a running step of the claim's own Run |
| Repository.RuntimeRepository.PriorDelivery | src/super_agent_runtime/repository.py:2015-2020 | the query for the Thread's delivery with the highest version |
| Repository.RuntimeRepository.Finalize | src/super_agent_runtime/repository.py:1973-2272 | delivery, Run, Thread, attention, job and outbox close together or not at all |
| Repository.RuntimeRepository.Present | src/super_agent_runtime/repository.py:2305-2352 | marks a prepared delivery presented, once |
| Repository.RuntimeRepository.CancelPendingRunActions | src/super_agent_runtime/repository.py:3444-3531 | drops the listed waiting intents of a Run and cancels their pending approvals |
| Integrity.CancelIsComplete | src/super_agent_runtime/repository.py:3444-3531 | given the query's full answer, every waiting intent of the Run is cancelled with its pending approval, and no other intent changes |
| Repository.RuntimeRepository.CancelRunsForUpdate | src/super_agent_runtime/repository.py:3319-3442 | cancels the listed unfinished Runs, their jobs and listed waiting actions, then calms the attention if nothing waits |
| Integrity.UpdateDropsActions | src/super_agent_runtime/repository.py:3319-3442 | given the queries' full answers, no intent waits for a Run the update replaced |
| Repository.RuntimeRepository.CancelTask | src/super_agent_runtime/repository.py:3049-3103 | the cancellation half of an update |
| Repository.RuntimeRepository.ForkBranch | src/super_agent_runtime/repository.py:3115-3170 | forks and selects the update's branch |
| Repository.RuntimeRepository.StartRun | src/super_agent_runtime/repository.py:3115-3317 | creates, binds and queues the new Run with its job |
| Repository.RuntimeRepository.ApplyUpdate | src/super_agent_runtime/repository.py:2974-3317 | the whole update, all or nothing |
| Repository.RuntimeRepository.AcceptRoute | src/super_agent_runtime/repository.py:2626-2809 | the inbox record and its one effect are stored together or not at all |
| Repository.RuntimeRepository.Resolve | src/super_agent_runtime/repository.py:2811-2963 | a proposed route is settled once, with its effect |
| Repository.RuntimeRepository.CreateIntent | src/super_agent_runtime/repository.py:3917-4036 | one intent per idempotency key |
| Repository.RuntimeRepository.RequestApproval | src/super_agent_runtime/repository.py:3637-3733 | one approval per intent, and the Thread asks for attention |
| Repository.RuntimeRepository.Decide | src/super_agent_runtime/repository.py:3752-3838 | the transaction of the decision: it is recorded once, and a denial drops the waiting intent |
| Repository.RuntimeRepository.ExpireAndDecide | src/super_agent_runtime/repository.py:3735-3838 | expiry commits first, in a transaction of its own, and then the decision commits or is refused |
| Integrity.LateDecisionRefused | src/super_agent_runtime/repository.py:3743-3762 | a decision on an approval that was due is refused, whatever is decided |
| Repository.RuntimeRepository.ExpireApprovals | src/super_agent_runtime/repository.py:3840-3879 | expires what is listed and due, drops its intents, calms the listed Threads |
| Integrity.ExpiryIsComplete | src/super_agent_runtime/repository.py:3840-3879 | given the query's full answer, exactly what is due expires and no listed Thread without a pending approval asks for one |
| Repository.RuntimeRepository.TakeIntent | src/super_agent_runtime/repository.py:4050-4153 | the transaction of the claim: fenced, and a lapse noticed on the way is undone when the claim is refused |
| Repository.RuntimeRepository.ExpireAndTake | src/super_agent_runtime/repository.py:4038-4153 | before an execution claim everything due expires, which stays committed when the claim is refused; a reconciliation claim expires nothing |
| Repository.RuntimeRepository.RecordOutcome | src/super_agent_runtime/repository.py:4155-4272 | stores a receipt once, under a live claim, with its intent settled as the transaction says (`Outcomes.ReceiptSettles`) |
| Repository.RuntimeRepository.FindReceipt | src/super_agent_runtime/repository.py:4176-4200 | whether the receipt id is stored, and whether it is the same receipt |
| Repository.RuntimeRepository.RecoverActions | src/super_agent_runtime/repository.py:4274-4301 | sends every listed lapsed action to reconciliation |
| Integrity.RecoveryIsComplete | src/super_agent_runtime/repository.py:4274-4301 | given the query's full answer, every lapsed action goes to reconciliation and no other intent changes |
| Repository.RuntimeRepository.SweepLeases | src/super_agent_runtime/repository.py:5043-5076 | expires the listed overdue leases of a key |
| Integrity.LeaseSweepIsComplete | src/super_agent_runtime/repository.py:5043-5076 | given the query's full answer, exactly the overdue leases of the key expire |
| Repository.RuntimeRepository.Acquire | src/super_agent_runtime/repository.py:2441-2535 | grants the next token of the key, or refuses and undoes its sweep |
| Repository.RuntimeRepository.Renew | src/super_agent_runtime/repository.py:2537-2573 | moves the end of a live lease |
| Repository.RuntimeRepository.Release | src/super_agent_runtime/repository.py:2575-2598 | ends a live lease (`Outcomes.ReleaseEndsLease`) |
| Outcomes.ClaimLastsItsLease | src/super_agent_runtime/repository.py:1247-1358 | a granted claim is of the picked job, for the caller, with the next token and attempt, and passes the fence exactly until `now + lease_seconds` |
| Outcomes.SweepOnlyFails | src/super_agent_runtime/repository.py:4979-5019 | the sweep fails what is listed and exhausted, with its reason, and changes no other job |
| Outcomes.GrantedClaimStarts | src/super_agent_runtime/repository.py:1247-1427 | in every reached store a granted claim can be started exactly until its lease is over, if the Run's inputs are bound |
| Outcomes.HeartbeatLastsItsLease | src/super_agent_runtime/repository.py:1429-1464 | after a heartbeat the claim passes the fence exactly until `now + lease_seconds`; nothing else of the job changes |
| Outcomes.SettlementLeaves | src/super_agent_runtime/repository.py:1527-1724 | success completes Run and job with its output and rests the Thread; a failure fails all three exactly when it is not retryable or the attempts are used up, else queues all three for after the delay; errors are stored |
| Outcomes.RetryIsClaimable | src/super_agent_runtime/repository.py:1578-1599 | a retried job can be claimed by its executor from the end of the delay on and not before; after any other ending never |
| Outcomes.RawSettlementLeaves | src/super_agent_runtime/repository.py:1466-1525 | the raw settlement ends the job the same way and leaves the Run alone |
| Outcomes.EnqueueLeaves | src/super_agent_runtime/repository.py:1165-1245 | the raw scheduling call stores the job as asked, or finds it there |
| Outcomes.GrantLastsItsLease | src/super_agent_runtime/repository.py:2441-2535 | a granted lease has the next token of its key and is in force exactly until `now + lease_seconds` |
| Outcomes.RenewalLastsItsLease | src/super_agent_runtime/repository.py:2537-2573 | after a renewal the lease is in force exactly until `now + lease_seconds`, and no other row changes |
| Outcomes.ReleaseEndsLease | src/super_agent_runtime/repository.py:2575-2598 | after a release nobody holds the lease at any time, and no other lease or token changes |
| Outcomes.ReleaseFrees | src/super_agent_runtime/repository.py:2441-2598 | after a release a request is granted exactly when every other lease in force on the key can share with it |
| Outcomes.ReleaseIsFinal | src/super_agent_runtime/repository.py:5021-5041 | over any later run the released holder can neither renew nor release |
| Outcomes.ReceiptSettles | src/super_agent_runtime/repository.py:4155-4272 | a new receipt is stored as it is and leaves its intent succeeded, failed, waiting or in doubt exactly as its outcome says, without its lease; a repeat changes nothing |
| Outcomes.ActionClaimLasts | src/super_agent_runtime/repository.py:4050-4153 | a granted action claim has the next token, executes or recovers, and passes the fence exactly until `now + lease_seconds` |
| Outcomes.ReconciliationClaimIff | src/super_agent_runtime/repository.py:4076-4096 | a reconciliation claim is granted exactly on an intent in doubt, a lapse noticed on the way included |
| Outcomes.IntentStored | src/super_agent_runtime/repository.py:3917-4036 | under a new key the request is stored as asked and waits; under a known one it is the stored request |
| Outcomes.ApprovalAsked | src/super_agent_runtime/repository.py:3637-3733 | a new approval is due exactly from `now + ttl_seconds` on, and its Thread asks for attention |
| Outcomes.DecisionLeaves | src/super_agent_runtime/repository.py:3752-3838 | a decision is stored with who made it and why; a denial cancels the intent it finds waiting and nothing else; attention ends exactly when nothing is pending |
| Outcomes.StartLeaves | src/super_agent_runtime/repository.py:1360-1427 | a start leaves Run and Thread running, keeps the first start time and changes no other Run |
| Outcomes.BindingLeaves | src/super_agent_runtime/repository.py:938-974 | binding freezes the Run's three inputs and changes nothing else of the Thread |
| Outcomes.CheckpointLeaves | src/super_agent_runtime/repository.py:1013-1054 | a checkpoint becomes the Run's latest under the next number |
| Outcomes.StepBegins | src/super_agent_runtime/repository.py:1726-1861 | a new step is stored as asked and runs; a repeated id is the same step |
| Outcomes.StepEnds | src/super_agent_runtime/repository.py:1863-1971 | a finished step has its outputs and has succeeded exactly when no error is given |
| Outcomes.DeliveryLeaves | src/super_agent_runtime/repository.py:1973-2272 | a finalized claim leaves one delivery and one notice with the artifacts it named, the Run completed with the primary one, the Thread delivered and asking to be read |
| Outcomes.PresentationLeaves | src/super_agent_runtime/repository.py:2305-2352 | presenting marks the one delivery and leaves everything else |
| Outcomes.BatchLeaves | src/super_agent_runtime/repository.py:743-785 | a batch read at the stored revision is appended as it is, in order; one that is there already changes nothing |
| Outcomes.SubmissionLeaves | src/super_agent_runtime/repository.py:545-733 | a submission stores its Thread, one queued Run with its inputs and its job as asked; a repeat changes nothing |
| Outcomes.UpdateLeaves | src/super_agent_runtime/repository.py:2974-3317 | an update notes its message and either starts a queued Run as submitted, on its branch, or cancels the Thread; exactly the listed unfinished Runs are cancelled with their jobs |
| Outcomes.UpdateFreezes | src/super_agent_runtime/inbox.py:615-670 | a goal change freezes the words as objective, a method change keeps it and appends one constraint, a supplement keeps the task; criteria, earlier constraints and inputs stay, in order and once each |
| Outcomes.UpdatePlans | src/super_agent_runtime/inbox.py:591-743 | the new Run keeps the agent and the executor of the one it supersedes; a method change forks a branch of its own, every other update stays on the current one |
| Outcomes.ContextFreezes | src/super_agent_runtime/inbox.py:672-702 | the frozen context has the earlier items and, behind them, one with the message's text |
| Outcomes.AcceptedUpdate | src/super_agent_runtime/inbox.py:314-405 | in every reached store a confirmed update message cancels its Thread or leaves a queued Run whose task and context go on from the superseded Run's as the message asks |
| Outcomes.ResolvedUpdate | src/super_agent_runtime/inbox.py:407-513 | the same for a proposed route its sender sends to a Thread |
| Outcomes.MessageRecorded | src/super_agent_runtime/inbox.py:314-405 | a new message is recorded as it came, with an open route nothing else happens, and a repeat changes nothing |
| Outcomes.RouteSettled | src/super_agent_runtime/repository.py:2811-2963 | a settled route keeps the message and says who decided what, and why |
| Outcomes.AcceptedTask | src/super_agent_runtime/inbox.py:515-565 | a confirmed new task starts a Thread of its own whose Run is frozen with the objective, the message's text and nothing else |
| Outcomes.ResolvedTask | src/super_agent_runtime/inbox.py:407-565 | the same for a proposed route its sender makes a task |
| Reducer.ReplaySingleWriter | src/super_agent_runtime/reducer.py:395-443 | along every accepted stream the active slot names exactly the Run that started and has not ended |
| Reducer.OneStartedRun | src/super_agent_runtime/reducer.py:395-443 | no two Runs of a Thread are past their start and unfinished |
| Reducer.ReplayFreezesEndedRuns | src/super_agent_runtime/reducer.py:111-168 | an ended Run's record never changes again |
| Reducer.RevisionCountsEvents | src/super_agent_runtime/reducer.py:195-516 | the revision of a Thread is the number of its events |
| Reducer.SameRevisionSameThread | src/super_agent_runtime/repository.py:2992-2996 | the optimistic check is sound: equal revisions mean equal Threads |
| Journal.LastSequenceIsCount | src/super_agent_runtime/repository.py:4366-4374 | stream numbers have no gaps and no repeats |
| Theorems.ReplayEqualsStorage | src/super_agent_runtime/repository.py:1142-1159 | after any run the stored Thread is the replay of its stream, and its revision is the stream's last number |
| Codec.DecodeEncode | src/super_agent_runtime/repository.py:4479-4596 | decoding an encoded projection gives it back, except that an empty executor key reads as unassigned |
| Codec.RoundTripIff | src/super_agent_runtime/repository.py:4521-4596 | the round trip is the identity exactly when every Run names an executor |
| Codec.ReplayStorable | src/super_agent_runtime/reducer.py:371-393 | every accepted stream leads to a Thread whose Runs name executors |
| Theorems.StorageRoundTrips | src/super_agent_runtime/repository.py:4468-4596 | after any run every stored Thread reads back unchanged |
| Theorems.SchedulerEqualsJournal | src/super_agent_runtime/repository.py:1311-1349 | after any run the scheduler table is the fold of the scheduler events, and token = attempts = claims issued, within the limit |
| Scheduler.ClaimNextKeepsInv | src/super_agent_runtime/repository.py:1247-1358 | claiming keeps fold, numbering, budget and one lease per Thread |
| Theorems.OneLiveClaim | src/super_agent_runtime/repository.py:4891-4911 | of all claims ever issued for a Run at most one passes the fence, and it is the newest |
| Theorems.SpentClaimsStaySpent | src/super_agent_runtime/repository.py:4891-4911 | a claim that was replaced, settled, cancelled or ran out fails every fenced write, with any arguments, for ever |
| Theorems.ThreadsClaimedOnce | src/super_agent_runtime/repository.py:1272-1309 | at any time at most one job of a Thread holds an unexpired claim |
| Scheduler.LaterClaimLargerToken | src/super_agent_runtime/repository.py:1307-1349 | of two claims of a Run the later has the larger token |
| Scheduler.SpentForever | src/super_agent_runtime/repository.py:4891-4911 | whatever the scheduler does next, a spent claim stays spent |
| Theorems.AttemptsAreBounded | src/super_agent_runtime/repository.py:1576-1599 | claims ever issued stay within the sum of the attempt limits, and what is left never grows |
| Scheduler.ClaimUsesBudget | src/super_agent_runtime/repository.py:1247-1358 | each claim handed out makes the remaining budget smaller: the worker loop's measure |
| Scheduler.QueryAnswers | src/super_agent_runtime/repository.py:1272-1309 | the claim query answers none exactly when no job is eligible |
| Scheduler.SweepIsComplete | src/super_agent_runtime/repository.py:4979-5019 | after the sweep no exhausted claim is left |
| Scheduler.RunBatch | src/super_agent_runtime/execution.py:196-215 | asks for claims until the limit or the first refusal and returns one result per claim; a limit below one is an error |
| Scheduler.RunUntilIdle | src/super_agent_runtime/execution.py:217-226 | at most `max_jobs` results and at most as many as attempts are left in the store it starts on; fewer than `max_jobs` only after a refused claim |
| Scheduler.GrantsWithinBudget | src/super_agent_runtime/execution.py:196-226 | while no new work is submitted, the claims granted and the attempts left never exceed the attempts left at the start |
| Theorems.HistoryOfRuns | src/super_agent_runtime/execution.py:196-226 | what a run of calls that submits nothing does between two executions is such a history, so the bound on the loop holds in every reached store |
| Theorems.EffectsAddUp | src/super_agent_runtime/repository.py:4038-4272 | after any run: executions = NOT_FOUND receipts, plus one unless waiting or cancelled; token = all claims; an intent has succeeded, or failed, exactly when one receipt says so, and none says so otherwise |
| Theorems.RetriesAreInformed | src/super_agent_runtime/repository.py:4060-4096 | after a lapse the next execution claim waits for a reconciliation and its NOT_FOUND; any two executions have a NOT_FOUND between them |
| Actions.NoBlindRetry | src/super_agent_runtime/repository.py:4938-4977 | the same for every legal action journal |
| Actions.EffectsAreSeparated | src/super_agent_runtime/repository.py:4038-4272 | two execution claims are separated by an established absence of effect |
| Theorems.ApprovalGate | src/super_agent_runtime/repository.py:4076-4096 | an intent that needs approval is past waiting only when approved; a refused approval means a cancelled intent; a pending one a waiting or cancelled intent |
| Theorems.DecisionsAreFinal | src/super_agent_runtime/repository.py:3759-3838 | a resolved approval and a dropped or settled intent never change again |
| Theorems.ExecutionClaimIff | src/super_agent_runtime/repository.py:4038-4096 | an execution claim is granted exactly on a waiting intent with the approval it needs, whatever became of its Run |
| Theorems.SettlementKeepsClaimable | src/super_agent_runtime/repository.py:1527-1724 | settling a Run leaves its intents as claimable as they were |
| Theorems.NotFoundReopens | src/super_agent_runtime/repository.py:4155-4272 | NOT_FOUND makes a claimed intent claimable again without looking at the Run |
| Theorems.OnlyNotFoundReopens | src/super_agent_runtime/repository.py:4038-4272 | over any run, an intent that is not waiting becomes claimable only through a NOT_FOUND receipt |
| Theorems.EndedRunExecutes | src/super_agent_runtime/repository.py:4038-4153 | from any store a run reaches, a claimed intent of an ended Run, a NOT_FOUND receipt and a claim lead to its execution |
| ActionGateway.ProviderCallsBounded | src/feishu_computer_agent/action_gateway.py:326-392 | under every interleaving provider calls never exceed execution claims, nor NOT_FOUND receipts plus one |
| ActionGateway.ComputerActionGateway.ExecuteOrResume | src/feishu_computer_agent/action_gateway.py:326-392 | at most one provider call, only for a waiting intent with the approval it needs; its receipt is stored exactly when the answer comes within the lease |
| ActionGateway.ComputerActionGateway.Submit | src/feishu_computer_agent/action_gateway.py:137-193 | a repeated request meets its own intent and never executes one that is past waiting; what needs approval runs only when approved |
| ActionGateway.ComputerActionGateway.Decide | src/feishu_computer_agent/action_gateway.py:195-249 | the provider is called only if the decision approves, or if the request was read as pending and stood approved when the decision came |
| ActionGateway.DenialAfterApproval | src/feishu_computer_agent/action_gateway.py:219-249 | a request read as pending and approved since: a denial is refused, and the claim that follows it is granted |
| ActionGateway.ReadStays | src/feishu_computer_agent/action_gateway.py:219-249 | what was read of an approval stays a possible earlier read, whatever the store does next |
| ActionGateway.ComputerActionGateway.RecoverMissingApprovals | src/feishu_computer_agent/action_gateway.py:113-135 | afterwards every listed waiting intent has its approval, hence every one when all are listed, and no intent changed |
| Theorems.SharedMeansReaders | src/super_agent_runtime/repository.py:2441-2535 | at any time two unexpired leases of one resource are both readers |
| Theorems.StaleLeasesStayStale | src/super_agent_runtime/repository.py:5021-5041 | an expired, released or replaced holder can never renew or release |
| Resources.AcquireIff | src/super_agent_runtime/repository.py:2441-2535 | a request is granted exactly when every lease in force can share with it |
| Resources.TokensIncrease | src/super_agent_runtime/repository.py:2477-2488 | tokens of a key strictly increase and stay within its last token |
| Protocol.EveryRunSound | src/super_agent_runtime/repository.py:86-97 | every run of every caller keeps replay, scheduler, action and lease invariants, and takes nothing back |
| Protocol.EveryClosedRun | src/super_agent_runtime/repository.py:86-97 | every run of the closed protocol keeps all invariants together |
| Theorems.OneOpenRun | src/super_agent_runtime/repository.py:3105-3317 | a Thread has at most one unfinished Run; it is the newest and lies on the current branch |
| Theorems.ThreadMirrorsRun | src/super_agent_runtime/repository.py:1527-1724 | a Thread is queued or running exactly when one of its Runs is |
| Theorems.JobMirrorsRun | src/super_agent_runtime/repository.py:1360-2272 | job and Run agree; an open Run has a live job unless its attempts are used up |
| Theorems.EveryRunHasJob | src/super_agent_runtime/repository.py:693-732 | every Run has its job |
| Theorems.ReachedLineage | src/super_agent_runtime/inbox.py:604-613 | the supersedes links form one chain through all Runs in reverse order of creation |
| Theorems.ReachedBranches | src/super_agent_runtime/reducer.py:291-369 | every fork chain ends at the one root and exactly the current branch is selected |
| Theorems.ReachedContexts | src/super_agent_runtime/inbox.py:672-702 | along the chain a context keeps every earlier item in order and gains one per update, ordinals increasing |
| Theorems.ReachedTasks | src/super_agent_runtime/inbox.py:615-670 | along the chain a task keeps its acceptance criteria, all earlier constraints in order, gaining at most one per update, and all inputs |
| Agreement.BasisIsLatest | src/super_agent_runtime/inbox.py:604-613 | an update builds on the Thread's latest Run |
| Agreement.SupersededListsOpen | src/super_agent_runtime/inbox.py:604-613 | it replaces every Run that has not ended |
| Agreement.PreparingSucceeds | src/super_agent_runtime/inbox.py:567-743 | preparing an executable update never fails on a Thread of the closed protocol |
| Agreement.SeenIsCurrent | src/super_agent_runtime/repository.py:2992-2996 | a stale read is caught by the revision check or is no stale read |
| Agreement.PreparedUpdateAgrees | src/super_agent_runtime/inbox.py:567-743 | an update prepared from any earlier read conflicts or keeps Thread, Run and job in agreement |
| Snapshots.PutContextCanonical | src/super_agent_runtime/snapshots.py:80-96 | the stored manifest is the same for every permutation of the items |
| Snapshots.PutContextIff | src/super_agent_runtime/snapshots.py:80-96 | exactly the manifests with a repeated ordinal are refused; the others keep every item, in order |
| Snapshots.PutContextAppends | src/super_agent_runtime/snapshots.py:80-96 | an item numbered behind the others is appended and nothing else moves |
| Prelude.SortIsSort | src/super_agent_runtime/snapshots.py:82-84 | the stable sort keeps the items and orders them |
| Theorems.StartIff | src/super_agent_runtime/repository.py:1360-1427 | starting a live claim succeeds exactly when the Run's snapshots are bound |
| Theorems.SettleIff | src/super_agent_runtime/repository.py:1527-1724 | settling finds a legal transition exactly for a live claim on a running Run under its own executor |
| Theorems.FinalizeIff | src/super_agent_runtime/repository.py:1973-2272 | finalizing succeeds exactly for a live claim on a running Run under its own executor |
| Theorems.WorkingIsActive | src/super_agent_runtime/repository.py:1022-1031 | a live claim on a running Run holds the active slot |
| Theorems.UpdateIff | src/super_agent_runtime/repository.py:2980-3018 | an update takes effect exactly when its guards hold, its message is new and it does not cancel a delivered Thread |
| Theorems.AcceptUpdateIff | src/super_agent_runtime/inbox.py:314-405 | accepting an update from a fresh read fails only for reasons visible before the call |
| Theorems.FreshKey | src/super_agent_runtime/repository.py:2626-2809 | a message without an effect has left no Thread, update or job |
| Theorems.OneEffectPerMessage | src/super_agent_runtime/repository.py:2626-2963 | a message is recorded once, leaves PROPOSED at most once and owns exactly one effect when it is a settled task or update, else none |
| Books.NoThreadYet | src/super_agent_runtime/inbox.py:515-565 | no Thread stands under a key whose route has taken no effect |
| Theorems.ReachedDeliveries | src/super_agent_runtime/repository.py:2015-2060 | a Thread's deliveries are versions 1 to n, each linked to the one before, the last named by the Thread |
| Theorems.DeliveryPerRun | src/super_agent_runtime/repository.py:2003-2272 | deliveries, notices and distinct completed Runs correspond one to one |
| Books.PriorIsLast | src/super_agent_runtime/repository.py:2015-2020 | the query for the prior delivery finds the end of the chain |
| WorkerHost.VerifierNeedsTransform | src/super_agent_runtime/execution.py:321-374 | in every run of hosts a verifier step exists only behind a succeeded transform step of the same attempt |
| WorkerHost.DeliveryNeedsBothSteps | src/super_agent_runtime/execution.py:321-491 | a delivery exists only if both steps of its attempt succeeded and the verifier's outputs contain its primary artifact |
| WorkerHost.FailedVerdictDeliversNothing | src/super_agent_runtime/execution.py:375-390 | an attempt whose verifier step did not succeed has no delivery and no notice in the outbox |
| DecisionRecord.Load | src/super_agent_runtime/source_artifact.py:80-134 | the loading loop: every source checked and read within the byte limit, or the first failure |
| DecisionRecord.Collect | src/super_agent_runtime/source_artifact.py:224-236 | the entries of one field over all sources in order |
| DecisionRecord.CollectedIff | src/super_agent_runtime/source_artifact.py:224-236 | a field is collected exactly when every source has it as an array or as null |
| DecisionRecord.AbsentSectionFails | src/super_agent_runtime/source_artifact.py:224-236 | a readable source with string ids and an absent section, on which execution fails |
| DecisionRecord.Execute | src/super_agent_runtime/source_artifact.py:43-212 | the draft, or the failure, of an execution without a finished checkpoint |
| DecisionRecord.ExecutedIff | src/super_agent_runtime/source_artifact.py:64-236 | an execution succeeds exactly when there are sources, not too many nor too large together, each bound, described, allowed and stored, and every section of each is an array or null |
| DecisionRecord.ExecutionReports | src/super_agent_runtime/source_artifact.py:146-236 | the record's six sections are the sources' entries under the same headings, in order, and each source is cited as the manifest describes it; its title is the chosen one |
| DecisionRecord.ReadContext | src/super_agent_runtime/verification.py:100-120 | the loop that keys the usable items by source id |
| DecisionRecord.CheckCitations | src/super_agent_runtime/verification.py:142-166 | the loop accepts exactly the lists whose citations all match |
| DecisionRecord.Verify | src/super_agent_runtime/verification.py:24-98 | PASSED exactly when all seven checks hold |
| DecisionRecord.PassedAdmits | src/super_agent_runtime/verification.py:44-61 | a record that passes is for its requester only and has something to act on; every source it was made from is of an allowed use, under an envelope, at the revision the record states |
| DecisionRecord.PassedIsBijection | src/super_agent_runtime/verification.py:37-61 | PASSED pairs citations and sources one to one with equal reference, revision and stored artifact |
| DecisionRecord.PassedIff | src/super_agent_runtime/verification.py:37-61 | the executor's record passes exactly when no source id occurs twice, the title chosen from the input is not blank, some source's fixture calls for action and all ids are strings |
| DecisionRecord.NumericRevisionFails | src/super_agent_runtime/source_artifact.py:118-134 | an execution that succeeds and whose record never passes |

## Left out

- SQLite, WAL, the migrations and the SQL text: tables are maps and sequences, a transaction is one atomic step.
- Hashing, uuid and timestamp texts and the artifact files: ids are injective names (the 12-digit cut of a branch id included), an artifact is its content, `projection_hash` is the revision it was taken at.
- Event fields that no rule reads: causation ids, payload extras, `schema_version`; a payload that lacks a required field is one unsupported event.
- Argument checks on the form of artifact references and on lengths of texts; trimming and lower-casing of message fields, of a claim's executor keys and of step ids, and the summary that defaults to the primary artifact, happen before the modelled calls.
- Inbox routing by regular expressions, titles' white space, confidence, rationale and free metadata: a route is an arbitrary input.
- Repository.RuntimeRepository.CancelPendingRunActions: the rows of its query are a parameter; `Integrity.CancelIsComplete` says what follows when they are the full answer.
- Repository.RuntimeRepository.CancelRunsForUpdate: the same, with `Integrity.UpdateDropsActions`.
- Repository.RuntimeRepository.ExpireApprovals: the same, with `Integrity.ExpiryIsComplete`.
- Repository.RuntimeRepository.RecoverActions: the same, with `Integrity.RecoveryIsComplete`.
- Repository.RuntimeRepository.SweepLeases: the same, with `Integrity.LeaseSweepIsComplete`.
- Repository.RuntimeRepository.Decide: the second transaction of `decide_approval` only; `ExpireAndDecide` is the whole call. In the state machine the two are two steps, so that others may come between.
- Repository.RuntimeRepository.TakeIntent: the same for `claim_action`, with `ExpireAndTake`.
- Scheduler.RunBatch: what the executions return is counted, not kept.
- ActionGateway.ComputerActionGateway.ExecuteOrResume: no other transaction falls between claim, provider and receipt in this contract; `ActionGateway.ProviderCallsBounded` is about every interleaving.
- ActionGateway.ComputerActionGateway.Submit: the binding to the inbox record, the Run it belongs to and the risk policy are decided before and come in as arguments.
- ActionGateway.ComputerActionGateway.RecoverMissingApprovals: the query's limit of 10,000 rows is the caller's choice of rows.
- Repository.Call: the clock the source reads before `BEGIN` is taken to be no earlier than the last committed transaction's.
- Theorems.JobMirrorsRun: the raw calls `append_thread_events`, `enqueue_run` and `finish_run_claim` may break it by design; they are part of the any-caller theorems only, and of the class only as `AppendEvents`.
- `create_run`, `transition_run`, `transition_thread`, `set_desired_state`, `set_attention` and `record_delivery`: batches of one for `append_thread_events`.
- Attention: no claim that it equals pending approvals, because settlement and finalization overwrite it.
- Submissions made directly, not through the inbox, name their Thread and Run themselves: in the closed protocol their ids differ from those derived from messages.
- WorkerHost.DeliveryNeedsBothSteps: a host's own calls are steps of a state machine, not a class, because heartbeats and other workers run between them; `_load_request` and the cancellation checks are not part of it.
- Scheduler.RunUntilIdle: the stores the loop meets come in as a history of moments, between which anything may happen but a submission (`Theorems.HistoryOfRuns` makes one of any such run of calls); what one execution does is the subject of `WorkerHost`.
- DecisionRecord.Execute: the resume from a finished checkpoint returns the stored artifact and is not modelled, nor are its checkpoints and cancellation checks; sections hold texts; JSON values are compared by kind and text, without Python's equality of `1` and `True`.
- DecisionRecord.Verify: the report and the verified record it writes are not in the contract; a list with unhashable elements, on which the source raises, is not a value of the model.
- ActionGateway.ComputerActionGateway.Decide: the request read first comes in as `seen`, and anything may happen between that read and the decision; no other transaction falls between the decision and the execution. The message binding and the requester-only rule come before the modelled part and are left out.
- Reducer.ForkBranch: registers one entry when the new branch's id equals the unregistered source branch, where the source's tuple holds both (reducer.py:291-330); only a raw append reaches it.
- Codec: the JSON text itself; `metadata`, which no modelled call sets; the second copy of the message key in an update.
- Feishu messaging, the server, the command line, computer providers, configuration, memory and knowledge adapters.
- List and get queries, which only filter rows.
