/** The Thread/Run life cycle: submission, execution under a claim, settlement, delivery, update. */
module Lifecycle {
  import opened Prelude
  import opened Vocabulary
  import opened Journal
  import opened Store
  import opened Snapshots
  import opened Scheduler
  import opened Actions

  datatype TaskSubmission = TaskSubmission(
    projectId: string, title: string, threadId: Id, runId: Id, branchId: Id, actor: string,
    correlation: Option<Id>, priority: int, maxAttempts: int, executorKey: string,
    task: Option<Artifact>, agent: Option<Artifact>, context: Option<Artifact>)

  datatype ThreadUpdateSubmission = ThreadUpdateSubmission(
    projectId: string, threadId: Id, messageKey: Id, actor: string, message: Artifact, text: Artifact,
    kind: UpdateKind, expectedRevision: nat, at: Time, newRun: Option<Id>, branchId: Option<Id>,
    forkedFrom: Option<Id>, forkedFromEvent: Option<EventId>, baseRevision: Option<nat>,
    reason: Option<string>, supersedes: Option<Id>, supersedesRuns: seq<Id>,
    task: Option<Artifact>, agent: Option<Artifact>, context: Option<Artifact>,
    priority: int, maxAttempts: int, executorKey: string)

  // ---------------------------------------------------------------- event batches

  function EventById(journal: seq<Event>, eventId: EventId): Option<Event> {
    if journal == [] then None
    else if journal[|journal| - 1].eventId == eventId then Some(journal[|journal| - 1])
    else EventById(journal[..|journal| - 1], eventId)
  }

  /** `_assert_same_event`. */
  predicate SameContent(draft: Draft, event: Event) {
    && draft.stream == event.stream && draft.thread == event.thread && draft.actor == event.actor
    && draft.at == event.at && draft.correlation == event.correlation && draft.body == event.body
  }

  predicate Recorded(journal: seq<Event>, draft: Draft) {
    draft.given.Some? && EventById(journal, Given(draft.given.value)).Some?
  }

  predicate OwnDraft(thread: Id, draft: Draft) {
    draft.stream == ThreadStream(thread) && draft.thread == Some(thread) && draft.given.Some?
  }

  predicate AllOwn(thread: Id, drafts: seq<Draft>) {
    forall d :: d in drafts ==> OwnDraft(thread, d)
  }

  predicate AllRecorded(journal: seq<Event>, drafts: seq<Draft>) {
    forall d :: d in drafts ==> Recorded(journal, d)
  }

  predicate AnyRecorded(journal: seq<Event>, drafts: seq<Draft>) {
    exists d :: d in drafts && Recorded(journal, d)
  }

  /** A recorded id stands for the same event as the draft. */
  predicate Unaltered(journal: seq<Event>, d: Draft) {
    Recorded(journal, d) ==> SameContent(d, EventById(journal, Given(d.given.value)).value)
  }

  predicate AllUnaltered(journal: seq<Event>, drafts: seq<Draft>) {
    forall d :: d in drafts ==> Unaltered(journal, d)
  }

  predicate IdRepeats(drafts: seq<Draft>) {
    exists i, j :: 0 <= i < j < |drafts| && drafts[i].given == drafts[j].given
  }

  /** `append_thread_events`: an optimistic batch that is idempotent in its event ids. */
  function AppendThreadEvents(s: Store, thread: Id, drafts: seq<Draft>, expectedRevision: nat): Result<Store> {
    if drafts == [] || !AllOwn(thread, drafts) then Err(ValueError)
    else if AllRecorded(s.journal, drafts) then
      if !AllUnaltered(s.journal, drafts) then Err(IdempotencyConflict)
      else if thread !in s.threads then Err(Error.NotFound)
      else Ok(s)
    else if AnyRecorded(s.journal, drafts) then Err(IdempotencyConflict)
    else if (if thread in s.threads then s.threads[thread].revision else 0) != expectedRevision then
      Err(ConcurrencyConflict)
    else if IdRepeats(drafts) then Err(IntegrityError)
    else EmitDrafts(s, thread, drafts)
  }

  /** `bind_run_snapshots` on a Thread read at `expectedRevision`. */
  function BindRunSnapshots(
    s: Store, thread: Id, runId: Id, task: Artifact, agent: Artifact, context: Artifact, expectedRevision: nat,
    origin: Origin): Result<Store>
  {
    if thread !in s.threads then Err(Error.NotFound)
    else if runId !in s.threads[thread].runs then Err(Error.NotFound)
    else if s.threads[thread].revision != expectedRevision then Err(ConcurrencyConflict)
    else Emit(s, thread, origin, SnapshotsBound(runId, task, agent, context))
  }

  // ---------------------------------------------------------------- submission

  predicate SameSubmission(existing: ThreadProjection, sub: TaskSubmission) {
    && existing.projectId == sub.projectId && existing.title == sub.title
    && sub.runId in existing.runs
    && var run := existing.runs[sub.runId];
    && (sub.task.Some? ==> run.task == sub.task && run.agent == sub.agent && run.context == sub.context)
    && (sub.executorKey == "unassigned" || run.executorKey == sub.executorKey)
  }

  function SubmissionDrafts(sub: TaskSubmission, now: Time): seq<Draft> {
    var t := sub.threadId;
    var owner := Origin(sub.actor, now, sub.correlation);
    var compiler := Origin("context-compiler", now, sub.correlation);
    var scheduler := Origin("scheduler", now, sub.correlation);
    [ThreadDraft(t, owner, ThreadCreated(sub.projectId, sub.title, DesiredState.Run, sub.branchId)),
     ThreadDraft(t, owner, RunCreated(sub.runId, sub.branchId, sub.executorKey, None))]
    + (if sub.task.Some? && sub.agent.Some? && sub.context.Some? then
         [ThreadDraft(t, compiler, SnapshotsBound(sub.runId, sub.task.value, sub.agent.value, sub.context.value))]
       else [])
    + [ThreadDraft(t, scheduler, RunStateChanged(sub.runId, RunState.Created, RunState.Queued, [], None, None)),
       ThreadDraft(t, scheduler, ThreadStateChanged(ThreadState.Created, ThreadState.Queued, []))]
  }

  /** `_submit_task_in_transaction`. */
  function SubmitTask(s: Store, sub: TaskSubmission, now: Time): Result<Store> {
    if (sub.task.Some? || sub.agent.Some? || sub.context.Some?)
       && !(sub.task.Some? && sub.agent.Some? && sub.context.Some?) then Err(ValueError)
    else if sub.maxAttempts < 1 || !NonBlank(sub.executorKey) then Err(ValueError)
    else if sub.threadId in s.threads then
      if SameSubmission(s.threads[sub.threadId], sub) then Ok(s) else Err(IdempotencyConflict)
    else
      var created :- EmitDrafts(s, sub.threadId, SubmissionDrafts(sub, now));
      InsertJob(
        created,
        NewJob(sub.runId, sub.threadId, sub.priority, now, sub.maxAttempts, sub.executorKey, now),
        Origin("scheduler", now, sub.correlation))
  }

  // ---------------------------------------------------------------- execution under a claim

  predicate SnapshotsBoundTo(run: RunProjection) {
    run.task.Some? && run.agent.Some? && run.context.Some?
  }

  /** `start_claimed_run`. */
  function StartClaimedRun(s: Store, claim: WorkerClaim, now: Time): Result<Store> {
    if !Live(s, claim, now) then Err(StaleLease)
    else if claim.threadId !in s.threads then Err(Error.NotFound)
    else if claim.runId !in s.threads[claim.threadId].runs then Err(Error.NotFound)
    else
      var p := s.threads[claim.threadId];
      var run := p.runs[claim.runId];
      var origin := Origin(claim.worker, now, None);
      if !SnapshotsBoundTo(run) then Err(InvalidTransition)
      else if !p.desired.Run? then Err(InvalidTransition)
      else if run.state.Running? && p.actual.Running? then Ok(s)
      else
        var threadRuns :-
          if p.actual.Running? then Ok(s)
          else Emit(s, claim.threadId, origin, ThreadStateChanged(p.actual, ThreadState.Running, []));
        if run.state.Running? then Ok(threadRuns)
        else
          Emit(threadRuns, claim.threadId, origin,
            RunStateChanged(claim.runId, run.state, RunState.Running, [], None, None))
  }

  /** The guard shared by everything only the running, claimed Run may do. */
  function NeedActive(s: Store, claim: WorkerClaim, now: Time): Check {
    if !Live(s, claim, now) then Fail(StaleLease)
    else if claim.threadId !in s.threads then Fail(Error.NotFound)
    else if claim.runId !in s.threads[claim.threadId].runs then Fail(Error.NotFound)
    else
      var p := s.threads[claim.threadId];
      Need(p.runs[claim.runId].state.Running? && p.activeRun == Some(claim.runId), InvalidTransition)
  }

  /** `record_claimed_run_checkpoint`. */
  function RecordClaimedCheckpoint(s: Store, claim: WorkerClaim, checkpoint: Artifact, now: Time): Result<Store> {
    var checked := NeedActive(s, claim, now);
    if checked.Fail? then Err(checked.error)
    else
      var run := s.threads[claim.threadId].runs[claim.runId];
      Emit(s, claim.threadId, Origin(claim.worker, now, None),
        CheckpointRecorded(claim.runId, checkpoint, run.checkpointSequence + 1))
  }

  /** How a claimed execution ended. */
  datatype Outcome =
    | Succeeded(output: Artifact)
    | Failure(code: string, error: string, retryable: bool, delay: int)

  function SettlementOf(outcome: Outcome, job: SchedulerJob, now: Time): Settlement {
    match outcome
    case Succeeded(_) => Done
    case Failure(_, _, retryable, delay) =>
      if !retryable || job.attempts >= job.maxAttempts then GiveUp else Retry(RetryAt(now, delay))
  }

  function RunTarget(how: Settlement): RunState {
    match how
    case Done => RunState.Completed
    case Retry(_) => RunState.Queued
    case GiveUp => RunState.Failed
  }

  function ThreadTarget(how: Settlement): ThreadState {
    match how
    case Done => ThreadState.Dormant
    case Retry(_) => ThreadState.Queued
    case GiveUp => ThreadState.Failed
  }

  function OutputOf(outcome: Outcome): Option<Artifact> {
    if outcome.Succeeded? then Some(outcome.output) else None
  }

  function ErrorOf(outcome: Outcome): Option<string> {
    if outcome.Succeeded? then None else Some(outcome.error)
  }

  function LastErrorOf(outcome: Outcome): Option<string> {
    if outcome.Succeeded? then None else Some(outcome.code + ": " + outcome.error)
  }

  /** `finish_claimed_execution`. */
  function FinishClaimedExecution(
    s: Store, claim: WorkerClaim, executorKey: string, version: string, outcome: Outcome, now: Time): Result<Store>
  {
    if !NonBlank(executorKey) || !NonBlank(version) then Err(ValueError)
    else if outcome.Failure? && (outcome.code == "" || outcome.error == "") then Err(ValueError)
    else
      :- NeedActive(s, claim, now);
      var job := s.jobs[claim.runId];
      var key := Strip(executorKey);
      :- Need(
        s.threads[claim.threadId].runs[claim.runId].executorKey == key && job.executorKey == key, InvalidTransition);
      var how := SettlementOf(outcome, job, now);
      var origin := Origin(claim.worker, now, None);
      var ended :- SettleThread(s, claim, how, OutputOf(outcome), ErrorOf(outcome), origin);
      Ok(SettleJob(ended, claim.runId, how, LastErrorOf(outcome), origin))
  }

  /** The Run, Thread and attention events of a settlement. */
  function SettleThread(
    s: Store, claim: WorkerClaim, how: Settlement, output: Option<Artifact>, error: Option<string>, origin: Origin)
    : Result<Store>
  {
    if claim.threadId !in s.threads || claim.runId !in s.threads[claim.threadId].runs then Err(Error.NotFound)
    else
      var p := s.threads[claim.threadId];
      var run := p.runs[claim.runId];
      var runEnded :- Emit(s, claim.threadId, origin,
        RunStateChanged(claim.runId, run.state, RunTarget(how), [], Some(output), error));
      var threadEnded :- Emit(runEnded, claim.threadId, origin, ThreadStateChanged(p.actual, ThreadTarget(how), []));
      if how.GiveUp? && !p.attention.Failed? then
        Emit(threadEnded, claim.threadId, origin, AttentionChanged(AttentionState.Failed))
      else Ok(threadEnded)
  }

  // ---------------------------------------------------------------- steps

  /** UNIQUE(run_id, ordinal, attempt). */
  predicate SlotTaken(s: Store, runId: Id, ordinal: nat, attempt: nat) {
    exists x :: x in s.steps && s.steps[x].runId == runId && s.steps[x].ordinal == ordinal
      && s.steps[x].attempt == attempt
  }

  /** `begin_claimed_step`. */
  function BeginClaimedStep(
    s: Store, claim: WorkerClaim, stepId: Id, ordinal: nat, kind: StepKind, providerKey: string,
    providerVersion: string, inputs: seq<Artifact>, now: Time): Result<Store>
  {
    if !NonBlank(providerKey) || !NonBlank(providerVersion) || ordinal < 1 then Err(ValueError)
    else if !Live(s, claim, now) then Err(StaleLease)
    else if stepId in s.steps then
      var stored := s.steps[stepId];
      if stored.threadId == claim.threadId && stored.runId == claim.runId && stored.ordinal == ordinal
         && stored.kind == kind && stored.attempt == claim.attempt && stored.providerKey == Strip(providerKey)
         && stored.providerVersion == Strip(providerVersion) && stored.inputs == inputs
      then Ok(s) else Err(IdempotencyConflict)
    else if claim.threadId !in s.threads then Err(Error.NotFound)
    else if claim.runId !in s.threads[claim.threadId].runs
            || !s.threads[claim.threadId].runs[claim.runId].state.Running? then Err(InvalidTransition)
    else if SlotTaken(s, claim.runId, ordinal, claim.attempt) then Err(IntegrityError)
    else
      var origin := Origin(claim.worker, now, None);
      var row := StepRecord(
        stepId, claim.threadId, claim.runId, ordinal, kind, StepState.Running, claim.attempt, Strip(providerKey),
        Strip(providerVersion), inputs, [], None, None);
      var created := Log(s, StepStream(stepId), Some(claim.threadId), origin, StepCreated);
      Ok(Log(created, StepStream(stepId), Some(claim.threadId), origin, StepStarted).(steps := s.steps[stepId := row]))
  }

  /** `finish_claimed_step`; a failure carries its error code. */
  function FinishClaimedStep(
    s: Store, claim: WorkerClaim, stepId: Id, outputs: seq<Artifact>, verifierResult: Option<Artifact>,
    errorCode: Option<string>, now: Time): Result<Store>
  {
    if !Live(s, claim, now) then Err(StaleLease)
    else if stepId !in s.steps then Err(Error.NotFound)
    else
      var row := s.steps[stepId];
      if row.threadId != claim.threadId || row.runId != claim.runId then Err(InvalidTransition)
      else if !row.state.Running? then Err(InvalidTransition)
      else if claim.threadId !in s.threads then Err(Error.NotFound)
      else if claim.runId !in s.threads[claim.threadId].runs then Err(Error.NotFound)
      else
        var origin := Origin(claim.worker, now, None);
        var thread := Some(claim.threadId);
        var noted := if outputs == [] then s else Log(s, StepStream(stepId), thread, origin, StepOutputs);
        var ended := row.(
          state := if errorCode.None? then StepState.Succeeded else StepState.Failed,
          outputs := outputs, verifierResult := verifierResult, errorCode := errorCode);
        Ok(Log(noted, StepStream(stepId), thread, origin, StepEnded(errorCode.None?))
             .(steps := s.steps[stepId := ended]))
  }

  // ---------------------------------------------------------------- delivery

  /** The Thread's delivery with the highest version. */
  function Prior(deliveries: seq<DeliveryRecord>, thread: Id): Option<DeliveryRecord> {
    if deliveries == [] then None
    else
      var earlier := Prior(deliveries[..|deliveries| - 1], thread);
      var last := deliveries[|deliveries| - 1];
      if last.threadId == thread && (earlier.None? || last.version > earlier.value.version) then Some(last)
      else earlier
  }

  /** UNIQUE(run_id), UNIQUE(thread_id, version) and the primary key. */
  predicate DeliveryClashes(deliveries: seq<DeliveryRecord>, row: DeliveryRecord) {
    exists i :: 0 <= i < |deliveries| &&
      (deliveries[i].runId == row.runId || deliveries[i].deliveryId == row.deliveryId
       || (deliveries[i].threadId == row.threadId && deliveries[i].version == row.version))
  }

  function NextDelivery(
    s: Store, claim: WorkerClaim, primary: Artifact, report: Artifact, summary: Artifact, supporting: seq<Artifact>,
    now: Time): DeliveryRecord
  {
    var prior := Prior(s.deliveries, claim.threadId);
    var version := if prior.Some? then prior.value.version + 1 else 1;
    DeliveryRecord(
      DeliveryOf(claim.threadId, claim.runId, version), claim.threadId, claim.runId, version,
      DeliveryState.Prepared, summary, primary, Dedup(supporting), report,
      if prior.Some? then Some(prior.value.deliveryId) else None, now)
  }

  /** `finalize_claimed_delivery`: job, Run, Thread, delivery, attention and outbox close together. */
  function FinalizeDelivery(
    s: Store, claim: WorkerClaim, executorKey: string, primary: Artifact, report: Artifact, summary: Artifact,
    supporting: seq<Artifact>, now: Time): Result<Store>
  {
    var checked := NeedActive(s, claim, now);
    if checked.Fail? then Err(checked.error)
    else if s.threads[claim.threadId].runs[claim.runId].executorKey != executorKey
            || s.jobs[claim.runId].executorKey != executorKey then Err(InvalidTransition)
    else
      var row := NextDelivery(s, claim, primary, report, summary, supporting, now);
      :- Need(!DeliveryClashes(s.deliveries, row), IntegrityError);
      DeliverRow(s, claim, row, primary, summary, now)
  }

  /** The writes of a delivery: prepared, closed, settled, announced. */
  function DeliverRow(
    s: Store, claim: WorkerClaim, row: DeliveryRecord, primary: Artifact, summary: Artifact, now: Time): Result<Store>
    requires claim.threadId in s.threads && claim.runId in s.jobs
  {
    var origin, stream := Origin(claim.worker, now, None), DeliveryStream(row.deliveryId);
    var prepared := Log(s, stream, Some(claim.threadId), origin, DeliveryPrepared(row.version));
    var closed :- CloseThread(prepared, claim, row.deliveryId, primary, origin);
    var settled := SettleJob(closed, claim.runId, Done, None, origin);
    var item := OutboxItem(OutboxOf(row.deliveryId), row.deliveryId, claim.threadId, claim.runId, summary, now);
    Ok(Log(settled, stream, Some(claim.threadId), Origin("outbox", now, None), DeliveryNotified(item.outboxId))
         .(deliveries := s.deliveries + [row], outbox := s.outbox + [item]))
  }

  function CloseThread(s: Store, claim: WorkerClaim, delivery: Id, primary: Artifact, origin: Origin): Result<Store>
  {
    if claim.threadId !in s.threads then Err(Error.NotFound)
    else
      var t := claim.threadId;
      var recorded :- Emit(s, t, origin, DeliveryRecorded(delivery));
      var completed :- Emit(recorded, t, origin,
        RunStateChanged(claim.runId, RunState.Running, RunState.Completed, [], Some(Some(primary)), None));
      var delivered :- Emit(completed, t, origin,
        ThreadStateChanged(s.threads[t].actual, ThreadState.Delivered, []));
      Emit(delivered, t, origin, AttentionChanged(AttentionState.DeliveryReady))
  }

  /** `present_delivery` on the row at an index of the table. */
  function PresentDelivery(s: Store, index: nat, actor: string, now: Time): Result<Store> {
    if !NonBlank(actor) then Err(ValueError)
    else if index >= |s.deliveries| then Err(Error.NotFound)
    else if s.deliveries[index].state.Presented? then Ok(s)
    else
      var row := s.deliveries[index];
      if row.threadId !in s.threads || row.runId !in s.threads[row.threadId].runs then Err(Error.NotFound)
      else
        Ok(Log(s, DeliveryStream(row.deliveryId), Some(row.threadId), Origin(actor, now, None), DeliveryShown)
             .(deliveries := s.deliveries[index := row.(state := DeliveryState.Presented)]))
  }

  // ---------------------------------------------------------------- thread updates

  /** `_cancel_runs_for_update`; `rows` lists the waiting intents of the Thread's Runs. */
  function CancelRuns(s: Store, thread: Id, runs: seq<Id>, rows: seq<Id>, reason: string, origin: Origin)
    : Result<Store>
  {
    if runs == [] then Ok(s)
    else
      var earlier :- CancelRuns(s, thread, runs[..|runs| - 1], rows, reason, origin);
      CancelRun(earlier, thread, runs[|runs| - 1], rows, reason, origin)
  }

  function CancelRun(s: Store, thread: Id, runId: Id, rows: seq<Id>, reason: string, origin: Origin): Result<Store> {
    if thread !in s.threads || runId !in s.threads[thread].runs
       || Terminal(s.threads[thread].runs[runId].state) then Ok(s)
    else
      var dropped := CancelPendingActions(s, runId, rows, reason, origin);
      var ended :- Emit(dropped, thread, origin,
        RunStateChanged(runId, s.threads[thread].runs[runId].state, RunState.Cancelled, [], None, None));
      Ok(CancelJob(ended, runId, origin))
  }

  /** Stops asking for approvals when cancelling left none to give. */
  function SettleAttention(s: Store, thread: Id, origin: Origin): Result<Store> {
    if thread in s.threads && s.threads[thread].attention.NeedsApproval? && NothingPending(s, thread) then
      Emit(s, thread, origin, AttentionChanged(AttentionState.Calm))
    else Ok(s)
  }

  function CancelForUpdate(s: Store, thread: Id, runs: seq<Id>, rows: seq<Id>, reason: string, origin: Origin)
    : Result<Store>
  {
    var cancelled :- CancelRuns(s, thread, runs, rows, reason, origin);
    SettleAttention(cancelled, thread, origin)
  }

  predicate Executable(sub: ThreadUpdateSubmission) {
    sub.newRun.Some? && sub.task.Some? && sub.agent.Some? && sub.context.Some?
  }

  /** The checks an update passes before anything is written. */
  function AdmitUpdate(s: Store, sub: ThreadUpdateSubmission): Check {
    if sub.maxAttempts < 1 || !NonBlank(sub.executorKey) then Fail(ValueError)
    else if sub.threadId !in s.threads then Fail(Error.NotFound)
    else
      var p := s.threads[sub.threadId];
      if p.projectId != sub.projectId then Fail(InvalidTransition)
      else if p.revision != sub.expectedRevision then Fail(ConcurrencyConflict)
      else if p.actual.Cancelled? || p.actual.Archived? then Fail(InvalidTransition)
      else if !sub.kind.Cancel? && !p.desired.Run? then Fail(InvalidTransition)
      else if sub.kind.Cancel? then
        Need(sub.newRun.None? && sub.task.None? && sub.agent.None? && sub.context.None?, ValueError)
      else Need(Executable(sub), ValueError)
  }

  function UpdateOrigin(sub: ThreadUpdateSubmission): Origin {
    Origin(sub.actor, sub.at, Some(sub.messageKey))
  }

  /** `_apply_thread_update_in_transaction`; `runs` lists the Thread's Runs for a cancellation. */
  function ApplyThreadUpdate(s: Store, sub: ThreadUpdateSubmission, runs: seq<Id>, rows: seq<Id>): Result<Store> {
    var checked := AdmitUpdate(s, sub);
    if checked.Fail? then Err(checked.error)
    else
      var origin := UpdateOrigin(sub);
      var noted :- Emit(s, sub.threadId, origin,
        MessageAppended(sub.messageKey, sub.message, sub.text, sub.kind, s.threads[sub.threadId].currentBranch,
                        sub.task, sub.context, sub.newRun));
      if sub.kind.Cancel? then CancelThread(noted, sub.threadId, runs, rows, origin)
      else
        var cleared :- CancelForUpdate(noted, sub.threadId, sub.supersedesRuns, rows, SupersededBy(sub.kind), origin);
        StartNewRun(cleared, sub, origin)
  }

  const USER_CANCELLED := "user_cancelled"

  function SupersededBy(kind: UpdateKind): string {
    match kind
    case Supplement => "superseded_by_supplement"
    case GoalChange => "superseded_by_goal_change"
    case MethodChange => "superseded_by_method_change"
    case Cancel => "superseded_by_cancel"
  }

  function CancelThread(s: Store, thread: Id, runs: seq<Id>, rows: seq<Id>, origin: Origin): Result<Store> {
    if thread !in s.threads then Err(Error.NotFound)
    else if s.threads[thread].actual.Delivered? then Err(InvalidTransition)
    else
      var wanted :-
        if s.threads[thread].desired.Cancel? then Ok(s)
        else Emit(s, thread, origin, DesiredStateChanged(DesiredState.Cancel));
      var cleared :- CancelForUpdate(wanted, thread, runs, rows, USER_CANCELLED, origin);
      if thread !in cleared.threads || cleared.threads[thread].actual.Cancelled? then Ok(cleared)
      else
        Emit(cleared, thread, origin,
          ThreadStateChanged(cleared.threads[thread].actual, ThreadState.Cancelled, []))
  }

  function TargetBranch(sub: ThreadUpdateSubmission, current: Id): Id {
    if sub.branchId.Some? then sub.branchId.value else current
  }

  /** The branch, Run and job half of an executable update. */
  function StartNewRun(s: Store, sub: ThreadUpdateSubmission, origin: Origin): Result<Store> {
    if sub.threadId !in s.threads || !Executable(sub) || sub.maxAttempts < 1 then Err(ValueError)
    else
      var branch := TargetBranch(sub, s.threads[sub.threadId].currentBranch);
      var branched :- ForkForUpdate(s, sub, branch, origin);
      ScheduleNewRun(branched, sub, branch, origin)
  }

  function ScheduleNewRun(s: Store, sub: ThreadUpdateSubmission, branch: Id, origin: Origin): Result<Store>
  {
    if !Executable(sub) || sub.maxAttempts < 1 then Err(ValueError)
    else
      var t, runId, scheduler := sub.threadId, sub.newRun.value, origin.(actor := "scheduler");
      var creation := RunCreated(runId, branch, sub.executorKey, sub.supersedes);
      var binding := SnapshotsBound(runId, sub.task.value, sub.agent.value, sub.context.value);
      var queued :- CreateQueuedRun(s, t, creation, binding, origin);
      var ready :- QueueThread(queued, t, scheduler);
      InsertJob(ready, NewJob(runId, t, sub.priority, sub.at, sub.maxAttempts, sub.executorKey, sub.at), scheduler)
  }

  /** Creates a Run, binds its frozen inputs and queues it. */
  function CreateQueuedRun(s: Store, thread: Id, creation: ThreadEvent, binding: ThreadEvent, origin: Origin)
    : Result<Store>
  {
    if !creation.RunCreated? then Err(ValueError)
    else
      var created :- Emit(s, thread, origin, creation);
      var bound :- Emit(created, thread, origin.(actor := "context-compiler"), binding);
      Emit(bound, thread, origin.(actor := "scheduler"),
        RunStateChanged(creation.runId, RunState.Created, RunState.Queued, [], None, None))
  }

  function ForkForUpdate(s: Store, sub: ThreadUpdateSubmission, branch: Id, origin: Origin): Result<Store> {
    if sub.forkedFrom.None? then Ok(s)
    else if sub.forkedFromEvent.None? || sub.baseRevision.None? || sub.reason.None? then Err(ValueError)
    else
      var forked :- Emit(s, sub.threadId, origin,
        BranchForked(branch, sub.forkedFrom, sub.forkedFromEvent.value, sub.baseRevision.value, sub.reason.value));
      Emit(forked, sub.threadId, origin, BranchSelected(branch))
  }

  /** The states an update brings back to QUEUED. */
  predicate Requeued(state: ThreadState) {
    !state.Queued? && !state.Cancelled? && !state.Archived?
  }

  function QueueThread(s: Store, thread: Id, origin: Origin): Result<Store> {
    if thread in s.threads && Requeued(s.threads[thread].actual) then
      Emit(s, thread, origin, ThreadStateChanged(s.threads[thread].actual, ThreadState.Queued, []))
    else Ok(s)
  }

  // =========================================================================== the inbox
  // The durable inbox: a message becomes one record and, when confirmed, one durable effect.

  datatype InboxMessage = InboxMessage(
    platform: string, messageId: string, chatId: string, actorId: string, text: string, payloadHash: string,
    createdAt: Time)

  /** What the router answers; routing itself is an arbitrary input. */
  datatype InboxRoute = InboxRoute(
    routeType: RouteType, domain: string, requiresConfirmation: bool, target: Option<Id>, taskText: string,
    updateKind: Option<UpdateKind>, candidates: seq<Id>)

  datatype Decision = AsNewTask | ToThread | Expire

  function KeyOf(message: InboxMessage): Id {
    Lit(message.platform + ":" + message.messageId)
  }

  function Title(objective: string): string {
    var words := Compact(objective).0;
    if words == "" then "Untitled task" else if |words| > 80 then words[..80] else words
  }

  function TextOf(artifact: Artifact): string {
    if artifact.Blob? then artifact.content else ""
  }

  // ---------------------------------------------------------------- preparing the effect

  /** `_prepare_task_submission`. */
  function PrepareTask(record: InboxRecord, objective: string, agent: Artifact): Result<TaskSubmission> {
    if record.threadId.None? then Err(ValueError)
    else
      var thread := record.threadId.value;
      var task := TaskArtifact(TaskSnapshot(
        thread, thread, record.projectId, objective, record.domain, [], [], [record.text], "normal",
        record.updatedAt, "unassigned"));
      var first := ContextItem(1, "inbox", record.messageKey, record.text, "direct", "normal", None);
      var context :- PutContext(ContextManifest(task, agent, [first], "inbox-context-v1", record.updatedAt));
      Ok(TaskSubmission(
        record.projectId, Title(objective), thread, RunOf(record.messageKey), Lit("main"), "inbox-router",
        Some(record.messageKey), 0, 3, "unassigned", Some(task), Some(agent), Some(context)))
  }

  /** The listed Runs that lie on the Thread's current branch. */
  function OnCurrentBranch(p: ThreadProjection, ids: seq<Id>): seq<Id> {
    if ids == [] then []
    else
      var last := ids[|ids| - 1];
      OnCurrentBranch(p, ids[..|ids| - 1])
      + if last in p.runs && p.runs[last].branchId == p.currentBranch then [last] else []
  }

  predicate CreatedAfter(a: RunProjection, b: RunProjection) {
    a.createdSequence > b.createdSequence || (a.createdSequence == b.createdSequence && a.createdAt > b.createdAt)
  }

  /** `max(runs, key=(created_sequence, created_at, ...))`. */
  function Newest(p: ThreadProjection, ids: seq<Id>): Option<Id> {
    if ids == [] then None
    else
      var earlier := Newest(p, ids[..|ids| - 1]);
      var last := ids[|ids| - 1];
      if last !in p.runs then earlier
      else if earlier.None? || earlier.value !in p.runs || CreatedAfter(p.runs[last], p.runs[earlier.value]) then
        Some(last)
      else earlier
  }

  /** The Run an update builds on: the newest of the current branch, else the newest of all. */
  function Basis(p: ThreadProjection, ids: seq<Id>): (r: Option<Id>)
    ensures r.Some? ==> r.value in p.runs
  {
    var here := OnCurrentBranch(p, ids);
    var basis := Newest(p, if here != [] then here else ids);
    if basis.Some? && basis.value in p.runs then basis else None
  }

  /** The Runs an update replaces: those of the current branch that have not ended. */
  function Superseded(p: ThreadProjection, ids: seq<Id>): seq<Id> {
    if ids == [] then []
    else
      var last := ids[|ids| - 1];
      Superseded(p, ids[..|ids| - 1])
      + if last in p.runs && p.runs[last].branchId == p.currentBranch && !Terminal(p.runs[last].state)
        then [last] else []
  }

  function BaseTask(basis: Option<RunProjection>): Result<Option<TaskSnapshot>> {
    if basis.None? || basis.value.task.None? then Ok(None)
    else if basis.value.task.value.TaskArtifact? then Ok(Some(basis.value.task.value.task))
    else Err(ValueError)
  }

  function BaseItems(basis: Option<RunProjection>): Result<seq<ContextItem>> {
    if basis.None? || basis.value.context.None? then Ok([])
    else if basis.value.context.value.ContextArtifact? then Ok(ItemsOf(basis.value.context))
    else Err(ValueError)
  }

  function OrElse(text: string, fallback: string): string {
    if text != "" then text else fallback
  }

  /** `dict.fromkeys`: first occurrences in order. */
  function Dedup(ids: seq<Artifact>): seq<Artifact> {
    if ids == [] then []
    else
      var earlier := Dedup(ids[..|ids| - 1]);
      if ids[|ids| - 1] in earlier then earlier else earlier + [ids[|ids| - 1]]
  }

  function ExecutorKeyFor(base: Option<TaskSnapshot>, basis: Option<RunProjection>): string {
    if base.Some? && base.value.workflowId != "" then base.value.workflowId
    else if basis.Some? then basis.value.executorKey
    else "unassigned"
  }

  function RevisedTask(
    base: Option<TaskSnapshot>, record: InboxRecord, thread: ThreadProjection, text: string, kind: UpdateKind,
    executorKey: string, at: Time): TaskSnapshot
  {
    var prior := if base.Some? then base.value
      else TaskSnapshot(thread.threadId, thread.threadId, record.projectId, thread.title, record.domain, [], [], [],
                        "normal", at, executorKey);
    TaskSnapshot(
      prior.taskId, thread.threadId, record.projectId,
      if kind.GoalChange? then text else prior.objective,
      OrElse(prior.domain, record.domain),
      prior.acceptanceCriteria,
      prior.constraints + (if kind.MethodChange? then ["User-selected method change: " + text] else []),
      Dedup(prior.inputs + [record.text]),
      OrElse(prior.sensitivity, "normal"), at, executorKey)
  }

  /** The new Run's task: the basis Run's own unless the goal or the method changed. */
  function TaskFor(
    basis: Option<RunProjection>, record: InboxRecord, thread: ThreadProjection, text: string, kind: UpdateKind,
    at: Time): Result<(Artifact, string)>
  {
    var base :- BaseTask(basis);
    var key := ExecutorKeyFor(base, basis);
    if basis.None? || basis.value.task.None? || kind.GoalChange? || kind.MethodChange? then
      Ok((TaskArtifact(RevisedTask(base, record, thread, text, kind, key, at)), key))
    else Ok((basis.value.task.value, key))
  }

  /** The new Run's context: the basis Run's items and this message behind them. */
  function ContextFor(
    basis: Option<RunProjection>, record: InboxRecord, task: Artifact, agent: Artifact, kind: UpdateKind, at: Time)
    : Result<Artifact>
  {
    var items :- BaseItems(basis);
    PutContext(ContextManifest(
      task, agent, items + [UpdateItem(items, record, kind)], "thread-update-context-v1", at))
  }

  function UpdateItem(items: seq<ContextItem>, record: InboxRecord, kind: UpdateKind): ContextItem {
    ContextItem(
      MaxOrdinal(items) + 1, "thread_update", record.messageKey, record.text, "direct", "normal", Some(kind))
  }

  function AgentFor(basis: Option<RunProjection>, agent: Artifact): Artifact {
    if basis.Some? && basis.value.agent.Some? then basis.value.agent.value else agent
  }

  function BareUpdate(
    record: InboxRecord, thread: ThreadProjection, kind: UpdateKind, at: Time): ThreadUpdateSubmission
  {
    ThreadUpdateSubmission(
      record.projectId, thread.threadId, record.messageKey, record.platform + ":" + record.actorId, record.message,
      record.text, kind, thread.revision, at, None, None, None, None, None, None, None, [], None, None, None, 0, 3,
      "unassigned")
  }

  /** `_prepare_thread_update` on the Thread as it was read; `ids` lists its Runs. */
  function PrepareUpdate(
    seen: Option<ThreadProjection>, ids: seq<Id>, record: InboxRecord, text: string, kind: UpdateKind,
    agent: Artifact, at: Time): Result<ThreadUpdateSubmission>
  {
    if record.threadId.None? || Strip(text) == "" then Err(ValueError)
    else if seen.None? || seen.value.threadId != record.threadId.value then Err(Error.NotFound)
    else if seen.value.projectId != record.projectId then Err(ValueError)
    else if kind.Cancel? then Ok(BareUpdate(record, seen.value, kind, at))
    else PrepareRun(seen.value, ids, record, Strip(text), kind, agent, at)
  }

  /** The part of `_prepare_thread_update` that starts a new Run. */
  function PrepareRun(
    thread: ThreadProjection, ids: seq<Id>, record: InboxRecord, text: string, kind: UpdateKind,
    agent: Artifact, at: Time): Result<ThreadUpdateSubmission>
  {
    var id := Basis(thread, ids);
    var basis := if id.Some? then Some(thread.runs[id.value]) else None;
    var task :- TaskFor(basis, record, thread, text, kind, at);
    var context :- ContextFor(basis, record, task.0, AgentFor(basis, agent), kind, at);
    var bare := BareUpdate(record, thread, kind, at).(
      newRun := Some(UpdateRunOf(record.messageKey)), supersedes := id, supersedesRuns := Superseded(thread, ids),
      task := Some(task.0), agent := Some(AgentFor(basis, agent)), context := Some(context), executorKey := task.1);
    Ok(if kind.MethodChange? then
         bare.(branchId := Some(BranchOf(record.messageKey)), forkedFrom := Some(thread.currentBranch),
               forkedFromEvent := Some(thread.lastEvent), baseRevision := Some(thread.revision),
               reason := Some("user_method_change"))
       else bare.(branchId := Some(thread.currentBranch)))
  }

  // ---------------------------------------------------------------- the transactions

  predicate TaskMatches(record: InboxRecord, task: TaskSubmission) {
    && record.threadId == Some(task.threadId) && record.projectId == task.projectId
    && task.correlation == Some(record.messageKey)
  }

  predicate UpdateMatches(record: InboxRecord, update: ThreadUpdateSubmission) {
    && record.threadId == Some(update.threadId) && record.projectId == update.projectId
    && record.messageKey == update.messageKey && record.updateKind == Some(update.kind)
  }

  /** The argument checks of `accept_inbox_route`. */
  predicate ValidAcceptance(
    record: InboxRecord, task: Option<TaskSubmission>, update: Option<ThreadUpdateSubmission>)
  {
    && (task.Some? ==>
          record.routeType.NewTask? && record.routeState.Confirmed? && TaskMatches(record, task.value))
    && (update.Some? ==>
          && record.routeType.ThreadUpdate? && (record.routeState.Confirmed? || record.routeState.Corrected?)
          && UpdateMatches(record, update.value))
    && (task.None? || update.None?)
  }

  /** `_assert_same_inbound`. */
  predicate SameInbound(candidate: InboxRecord, stored: InboxRecord) {
    && (stored.payloadHash == "" || stored.payloadHash == candidate.payloadHash)
    && candidate.platform == stored.platform && candidate.messageId == stored.messageId
    && candidate.chatId == stored.chatId && candidate.actorId == stored.actorId && candidate.text == stored.text
  }

  function InboxLog(s: Store, record: InboxRecord, origin: Origin, event: InboxEvent): Store {
    Log(s, InboxStream(record.messageKey), record.threadId, origin, OfInbox(event))
  }

  /** The events of a first acceptance. */
  function LogAcceptance(s: Store, record: InboxRecord): Store {
    var chat := ConversationStream(record.platform, record.chatId);
    var key, at := record.messageKey, record.createdAt;
    var sender := Origin(record.actorId, at, Some(key));
    var received := Log(s, chat, None, sender, MessageReceived(key));
    var proposed := InboxLog(
      received, record, Origin("inbox-router", at, Some(key)), RouteProposed(record.routeType, record.routeState));
    var confirmed :=
      if record.routeState.Confirmed? then
        InboxLog(proposed, record, Origin("inbox-policy", at, Some(key)), RouteConfirmed(record.routeType))
      else proposed;
    if record.routeType.Chat? then Log(confirmed, chat, None, sender, ConversationAppended(key)) else confirmed
  }

  /** The durable effect of a route. */
  function ApplyEffect(
    s: Store, task: Option<TaskSubmission>, update: Option<ThreadUpdateSubmission>, ids: seq<Id>, rows: seq<Id>,
    now: Time): Result<Store>
  {
    var submitted :- if task.Some? then SubmitTask(s, task.value, now) else Ok(s);
    if update.Some? then ApplyThreadUpdate(submitted, update.value, ids, rows) else Ok(submitted)
  }

  /** `accept_inbox_route`. */
  function AcceptInboxRoute(
    s: Store, record: InboxRecord, task: Option<TaskSubmission>, update: Option<ThreadUpdateSubmission>,
    ids: seq<Id>, rows: seq<Id>, now: Time): Result<Store>
  {
    if !ValidAcceptance(record, task, update) then Err(ValueError)
    else if record.messageKey in s.inbox then
      if SameInbound(record, s.inbox[record.messageKey]) then Ok(s) else Err(IdempotencyConflict)
    else
      var stored := LogAcceptance(s, record).(inbox := s.inbox[record.messageKey := record]);
      ApplyEffect(stored, task, update, ids, rows, now)
  }

  /** The argument checks of `resolve_inbox_route`. */
  predicate ValidResolution(
    record: InboxRecord, resolver: string, reason: string, task: Option<TaskSubmission>,
    update: Option<ThreadUpdateSubmission>)
  {
    && !record.routeState.Proposed? && NonBlank(resolver) && NonBlank(reason)
    && record.resolvedBy == Some(resolver) && !record.requiresConfirmation
    && (if record.routeState.Expired? then task.None? && update.None?
        else if record.routeType.NewTask? then task.Some? && update.None?
        else if record.routeType.ThreadUpdate? then update.Some? && task.None?
        else task.None? && update.None?)
    && (task.Some? ==> TaskMatches(record, task.value))
    && (update.Some? ==> UpdateMatches(record, update.value))
  }

  /** `_same_route_resolution`. */
  predicate SameResolution(stored: InboxRecord, candidate: InboxRecord) {
    && stored.routeType == candidate.routeType && stored.routeState == candidate.routeState
    && stored.threadId == candidate.threadId && stored.updateKind == candidate.updateKind
    && stored.resolvedBy == candidate.resolvedBy
  }

  /** The columns a resolution overwrites. */
  function Resolved(stored: InboxRecord, record: InboxRecord, resolver: string, reason: string): InboxRecord {
    stored.(
      routeType := record.routeType, routeState := record.routeState, threadId := record.threadId,
      domain := record.domain, requiresConfirmation := false, updateKind := record.updateKind,
      candidates := record.candidates, updatedAt := record.updatedAt, resolvedBy := Some(resolver),
      resolutionReason := Some(reason))
  }

  /** `resolve_inbox_route`. */
  function ResolveInboxRoute(
    s: Store, record: InboxRecord, resolver: string, reason: string, task: Option<TaskSubmission>,
    update: Option<ThreadUpdateSubmission>, ids: seq<Id>, rows: seq<Id>): Result<Store>
  {
    var key := record.messageKey;
    if !ValidResolution(record, resolver, reason, task, update) then Err(ValueError)
    else if key !in s.inbox then Err(Error.NotFound)
    else
      var stored := s.inbox[key];
      if !SameInbound(record, stored) then Err(IdempotencyConflict)
      else if resolver != stored.platform + ":" + stored.actorId then Err(PermissionError)
      else if record.projectId != stored.projectId || record.message != stored.message then Err(IdempotencyConflict)
      else if !stored.routeState.Proposed? then
        if SameResolution(stored, record) then Ok(s) else Err(ConcurrencyConflict)
      else
        var logged := InboxLog(
          s, record, Origin(resolver, record.updatedAt, Some(key)), RouteResolved(record.routeType, record.routeState));
        var settled := logged.(inbox := s.inbox[key := Resolved(stored, record, resolver, reason)]);
        ApplyEffect(settled, task, update, ids, rows, record.updatedAt)
  }

  // ---------------------------------------------------------------- the coordinator

  function NewRecord(message: InboxMessage, route: InboxRoute, project: string): InboxRecord {
    var key, text := KeyOf(message), Blob(message.text);
    InboxRecord(
      key, message.payloadHash, message.platform, message.messageId, message.chatId, message.actorId, project,
      EnvelopeArtifact(key, text, message.createdAt), text, route.routeType,
      if route.requiresConfirmation then RouteState.Proposed else RouteState.Confirmed,
      route.domain, route.requiresConfirmation, message.createdAt,
      if route.routeType.NewTask? then Some(ThreadOf(key)) else route.target,
      route.updateKind, route.candidates, message.createdAt, None, None)
  }

  /** `InboxCoordinator.accept`; `seen` is the target Thread as it was read, `ids` its Runs. */
  function Accept(
    s: Store, message: InboxMessage, route: InboxRoute, project: string, agent: Artifact,
    seen: Option<ThreadProjection>, ids: seq<Id>, rows: seq<Id>, now: Time): Result<Store>
  {
    var record := NewRecord(message, route, project);
    if record.messageKey in s.inbox then
      if SameInbound(record, s.inbox[record.messageKey]) then Ok(s) else Err(IdempotencyConflict)
    else if route.routeType.NewTask? then
      var task :- PrepareTask(record, OrElse(route.taskText, Strip(message.text)), agent);
      AcceptInboxRoute(s, record, Some(task), None, ids, rows, now)
    else if route.routeType.ThreadUpdate? && record.routeState.Confirmed? then
      var kind := if route.updateKind.Some? then route.updateKind.value else UpdateKind.Supplement;
      var update :- PrepareUpdate(seen, ids, record, route.taskText, kind, agent, message.createdAt);
      AcceptInboxRoute(s, record, None, Some(update), ids, rows, now)
    else AcceptInboxRoute(s, record, None, None, ids, rows, now)
  }

  function KindOf(kind: Option<UpdateKind>, stored: Option<UpdateKind>): UpdateKind {
    if kind.Some? then kind.value else if stored.Some? then stored.value else UpdateKind.Supplement
  }

  /** The same answer given again to a route that is no longer open. */
  predicate SameDecision(stored: InboxRecord, decision: Decision, target: Option<Id>, kind: Option<UpdateKind>) {
    match decision
    case AsNewTask => stored.routeType.NewTask?
    case ToThread =>
      && stored.routeType.ThreadUpdate? && stored.threadId == target
      && (kind.None? || stored.updateKind == kind)
    case Expire => stored.routeState.Expired?
  }

  /** `InboxCoordinator.resolve_route` on the record as it was read. */
  function ResolveRoute(
    s: Store, stored: InboxRecord, platform: string, actor: string, decision: Decision, target: Option<Id>,
    kind: Option<UpdateKind>, reason: string, agent: Artifact, seen: Option<ThreadProjection>, ids: seq<Id>,
    rows: seq<Id>, now: Time): Result<Store>
  {
    if stored.platform != platform || stored.actorId != actor then Err(PermissionError)
    else if !stored.routeState.Proposed? then
      if SameDecision(stored, decision, target, kind) then Ok(s) else Err(IdempotencyConflict)
    else
      var resolver := platform + ":" + actor;
      var open := stored.(
        requiresConfirmation := false, updatedAt := now, resolvedBy := Some(resolver),
        resolutionReason := Some(reason));
      match decision
      case Expire =>
        ResolveInboxRoute(s, open.(routeState := RouteState.Expired), resolver, reason, None, None, ids, rows)
      case AsNewTask =>
        var record := open.(
          routeType := RouteType.NewTask, routeState := RouteState.Corrected,
          threadId := Some(ThreadOf(stored.messageKey)), updateKind := None);
        var task :- PrepareTask(record, TextOf(stored.text), agent);
        ResolveInboxRoute(s, record, resolver, reason, Some(task), None, ids, rows)
      case ToThread =>
        if target.None? then Err(ValueError)
        else
          var chosen := KindOf(kind, stored.updateKind);
          var record := open.(
            routeType := RouteType.ThreadUpdate, routeState := RouteState.Corrected, threadId := target,
            updateKind := Some(chosen));
          var update :- PrepareUpdate(seen, ids, record, TextOf(stored.text), chosen, agent, now);
          ResolveInboxRoute(s, record, resolver, reason, None, Some(update), ids, rows)
  }
}
