/** The runtime's vocabulary: states, identifiers, frozen inputs, rows and projections. */
module Vocabulary {
  import opened Prelude

  type Time = int

  datatype DesiredState = Run | Pause | Cancel | Archive

  datatype ThreadState =
    | Created | Dormant | Queued | Running
    | WaitingUser | WaitingApproval | WaitingReceipt | WaitingDependency | WaitingResource
    | Verifying | Delivered | Failed | Paused | Cancelled | Archived

  datatype AttentionState = Calm | NeedsInput | NeedsApproval | HasConflict | DeliveryReady | Failed

  datatype RunState =
    | Created | Queued | Running
    | WaitingUser | WaitingApproval | WaitingReceipt | WaitingDependency | WaitingResource
    | Verifying | Completed | Partial | Failed | Quarantined | Cancelled

  datatype JobState = Queued | Claimed | Completed | Failed | Cancelled

  datatype BranchStatus = Active | Selected | Rejected | Merged

  datatype UpdateKind = Supplement | GoalChange | MethodChange | Cancel

  datatype StepKind = Model | ToolRead | ToolWrite | Transform | Verifier | DeliveryPrepare

  datatype StepState = Running | Succeeded | Failed

  datatype DeliveryState = Prepared | Presented

  datatype AccessMode = Read | Write | Exclusive

  datatype LeaseStatus = Active | Released | Expired

  datatype ActionStatus =
    | Pending | Executing | ReconcileRequired | Recovering | Succeeded | Failed | Cancelled

  datatype ReceiptOutcome = Succeeded | Failed | NotFound | Unknown

  datatype ApprovalState = Pending | Approved | Denied | Expired | Cancelled

  datatype RouteType = Chat | NewTask | ThreadUpdate | Control | Ambiguous

  datatype RouteState = Proposed | Confirmed | Corrected | Expired

  /** Identifiers. A name-based uuid5 is an injective function of its name, so each name
      pattern the runtime uses is a constructor; every other id is a caller's text. */
  datatype Id =
    | Lit(text: string)
    | ThreadOf(message: Id)
    | RunOf(message: Id)
    | UpdateRunOf(message: Id)
    | BranchOf(message: Id)
    | DeliveryOf(thread: Id, run: Id, version: nat)
    | OutboxOf(delivery: Id)
    | StepOf(run: Id, attempt: nat, ordinal: nat, kind: StepKind)
    | ReceiptOf(intent: Id, token: nat)

  /** Event ids: chosen by a caller, or a uuid4 drawn for the event at a journal position. */
  datatype EventId = Given(text: string) | Generated(position: nat)

  /** Content-addressed artifacts: the hash is injective, so an artifact's id is its content. */
  datatype Artifact =
    | Blob(content: string)
    | EnvelopeArtifact(key: Id, text: Artifact, createdAt: Time)
    | TaskArtifact(task: TaskSnapshot)
    | ContextArtifact(manifest: ContextManifest)

  datatype TaskSnapshot = TaskSnapshot(
    taskId: Id,
    threadId: Id,
    projectId: string,
    objective: string,
    domain: string,
    acceptanceCriteria: seq<string>,
    constraints: seq<string>,
    inputs: seq<Artifact>,
    sensitivity: string,
    createdAt: Time,
    workflowId: string)

  datatype ContextItem = ContextItem(
    ordinal: int,
    sourceType: string,
    sourceRef: Id,
    content: Artifact,
    allowedUse: string,
    sensitivity: string,
    updateKind: Option<UpdateKind>)

  datatype ContextManifest = ContextManifest(
    task: Artifact,
    agent: Artifact,
    items: seq<ContextItem>,
    compiler: string,
    compiledAt: Time)

  datatype RunProjection = RunProjection(
    runId: Id,
    branchId: Id,
    executorKey: string,
    state: RunState,
    revision: nat,
    startedAt: Option<Time>,
    completedAt: Option<Time>,
    waitingOn: seq<string>,
    output: Option<Artifact>,
    task: Option<Artifact>,
    agent: Option<Artifact>,
    context: Option<Artifact>,
    checkpoint: Option<Artifact>,
    checkpointSequence: nat,
    error: Option<string>,
    createdAt: Time,
    createdSequence: nat,
    supersedes: Option<Id>)

  datatype BranchProjection = BranchProjection(
    branchId: Id,
    status: BranchStatus,
    createdBy: string,
    createdAt: Time,
    forkedFrom: Option<Id>,
    forkedFromEvent: Option<EventId>,
    baseRevision: Option<nat>,
    reason: Option<string>,
    selectedAt: Option<Time>,
    rejectedAt: Option<Time>)

  datatype ThreadUpdateProjection = ThreadUpdateProjection(
    updateId: Id,
    message: Artifact,
    text: Artifact,
    kind: UpdateKind,
    actor: string,
    branchId: Id,
    at: Time,
    task: Option<Artifact>,
    context: Option<Artifact>,
    newRun: Option<Id>)

  /** A Thread aggregate. The source keeps `runs` and `branches` as tuples sorted by id,
      which is a map written out; `updates` keeps arrival order. */
  datatype ThreadProjection = ThreadProjection(
    threadId: Id,
    projectId: string,
    title: string,
    desired: DesiredState,
    actual: ThreadState,
    attention: AttentionState,
    revision: nat,
    currentBranch: Id,
    activeRun: Option<Id>,
    waitingOn: seq<string>,
    latestDelivery: Option<Id>,
    lastEvent: EventId,
    createdAt: Time,
    updatedAt: Time,
    runs: map<Id, RunProjection>,
    branches: map<Id, BranchProjection>,
    updates: seq<ThreadUpdateProjection>)
  {
    predicate HasUpdate(updateId: Id) {
      exists i :: 0 <= i < |updates| && updates[i].updateId == updateId
    }
  }

  /** The row of a Run; any row when there is none. Contracts read rows this way where they also say that
      the row is there. */
  ghost function RunAt(p: ThreadProjection, r: Id): RunProjection {
    if r in p.runs then p.runs[r] else var run: RunProjection :| true; run
  }

  /** The three lease columns of a row; the source sets and clears them together. */
  datatype Lease = Lease(owner: string, leaseId: string, expiresAt: Time)

  datatype SchedulerJob = SchedulerJob(
    runId: Id,
    threadId: Id,
    state: JobState,
    priority: int,
    availableAt: Time,
    attempts: nat,
    maxAttempts: nat,
    executorKey: string,
    lease: Option<Lease>,
    token: nat,
    lastError: Option<string>,
    createdAt: Time,
    updatedAt: Time)

  datatype WorkerClaim = WorkerClaim(
    runId: Id, threadId: Id, worker: string, leaseId: string, token: nat, expiresAt: Time, attempt: nat)

  datatype StepRecord = StepRecord(
    stepId: Id,
    threadId: Id,
    runId: Id,
    ordinal: nat,
    kind: StepKind,
    state: StepState,
    attempt: nat,
    providerKey: string,
    providerVersion: string,
    inputs: seq<Artifact>,
    outputs: seq<Artifact>,
    verifierResult: Option<Artifact>,
    errorCode: Option<string>)

  datatype DeliveryRecord = DeliveryRecord(
    deliveryId: Id,
    threadId: Id,
    runId: Id,
    version: nat,
    state: DeliveryState,
    summary: Artifact,
    primary: Artifact,
    supporting: seq<Artifact>,
    verifierResult: Artifact,
    previous: Option<Id>,
    createdAt: Time)

  datatype OutboxItem = OutboxItem(
    outboxId: Id,
    deliveryId: Id,
    threadId: Id,
    runId: Id,
    payload: Artifact,
    createdAt: Time)

  datatype ActionIntent = ActionIntent(
    intentId: Id,
    idempotencyKey: string,
    threadId: Id,
    runId: Id,
    capability: string,
    request: Artifact,
    requiresApproval: bool,
    status: ActionStatus,
    lease: Option<Lease>,
    token: nat,
    lastError: Option<string>,
    createdAt: Time,
    updatedAt: Time)

  datatype ActionClaim = ActionClaim(
    intentId: Id, worker: string, leaseId: string, token: nat, expiresAt: Time, reconciliation: bool)

  datatype ActionReceipt = ActionReceipt(
    receiptId: Id,
    intentId: Id,
    outcome: ReceiptOutcome,
    provider: string,
    response: Option<Artifact>,
    at: Time)

  datatype ApprovalRequest = ApprovalRequest(
    approvalId: Id,
    intentId: Id,
    status: ApprovalState,
    riskLevel: string,
    requestedBy: string,
    reason: string,
    policy: Option<Artifact>,
    createdAt: Time,
    expiresAt: Time,
    updatedAt: Time,
    resolvedBy: Option<string>,
    evidence: Option<Artifact>)

  datatype InboxRecord = InboxRecord(
    messageKey: Id,
    payloadHash: string,
    platform: string,
    messageId: string,
    chatId: string,
    actorId: string,
    projectId: string,
    message: Artifact,
    text: Artifact,
    routeType: RouteType,
    routeState: RouteState,
    domain: string,
    requiresConfirmation: bool,
    createdAt: Time,
    threadId: Option<Id>,
    updateKind: Option<UpdateKind>,
    candidates: seq<Id>,
    updatedAt: Time,
    resolvedBy: Option<string>,
    resolutionReason: Option<string>)

  datatype ResourceLease = ResourceLease(
    leaseId: string,
    resourceKey: string,
    mode: AccessMode,
    ownerRun: Id,
    threadId: Id,
    token: nat,
    acquiredAt: Time,
    expiresAt: Time,
    status: LeaseStatus)

  predicate Terminal(state: RunState) {
    state.Completed? || state.Partial? || state.Failed? || state.Quarantined? || state.Cancelled?
  }
}
