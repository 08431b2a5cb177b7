/** The runtime as a state machine: every transaction is a step, in any interleaving, at any time. */
module Protocol {
  import opened Prelude
  import opened Vocabulary
  import opened Journal
  import opened Reducer
  import opened Store
  import opened Scheduler
  import opened Actions
  import opened Resources
  import opened Lifecycle
  import opened Integrity
  import opened Agreement
  import opened Books

  /** Scheduler and execution calls of workers. */
  datatype WorkStep =
    | Claim(worker: string, leaseId: string, seconds: int, keys: Option<set<string>>, rows: seq<Id>, pick: Option<Id>)
    | Start(claim: WorkerClaim)
    | Heartbeat(claim: WorkerClaim, seconds: int)
    | Checkpoint(claim: WorkerClaim, checkpoint: Artifact)
    | Finish(claim: WorkerClaim, executorKey: string, version: string, outcome: Outcome)
    | BeginStep(
        claim: WorkerClaim, stepId: Id, ordinal: nat, kind: StepKind, providerKey: string, version: string,
        inputs: seq<Artifact>)
    | FinishStep(
        claim: WorkerClaim, stepId: Id, outputs: seq<Artifact>, verifierResult: Option<Artifact>,
        errorCode: Option<string>)
    | Finalize(
        claim: WorkerClaim, executorKey: string, primary: Artifact, report: Artifact, summary: Artifact,
        supporting: seq<Artifact>)

  /** Calls that bring work in or show it. */
  datatype DeskStep =
    | Submit(sub: TaskSubmission)
    | Bind(thread: Id, runId: Id, task: Artifact, agent: Artifact, context: Artifact, expectedRevision: nat,
        actor: string)
    | AcceptMessage(
        message: InboxMessage, route: InboxRoute, project: string, agent: Artifact, seen: Option<ThreadProjection>,
        ids: seq<Id>, rows: seq<Id>)
    | Resolve(
        stored: InboxRecord, platform: string, actor: string, decision: Decision, target: Option<Id>,
        kind: Option<UpdateKind>, reason: string, agent: Artifact, seen: Option<ThreadProjection>, ids: seq<Id>,
        rows: seq<Id>)
    | Present(index: nat, actor: string)

  /** Calls of the action gateway. */
  datatype GateStep =
    | CreateIntent(
        thread: Id, runId: Id, capability: string, request: Artifact, key: string, requiresApproval: bool,
        intentId: Id, actor: string)
    | AskApproval(
        intentId: Id, riskLevel: string, requestedBy: string, reason: string, ttl: int, policy: Option<Artifact>,
        approvalId: Id)
    | Decide(approvalId: Id, decision: ApprovalState, actor: string, evidence: Option<Artifact>)
    | ExpireApprovals(rows: seq<Id>, threads: seq<Id>)
    | TakeIntent(intentId: Id, worker: string, leaseId: string, seconds: int, reconciling: bool)
    | Receipt(
        taken: ActionClaim, outcome: ReceiptOutcome, provider: string, response: Option<Artifact>, receiptId: Id)
    | RecoverActions(rows: seq<Id>)

  datatype LeaseStep =
    | Acquire(
        key: string, mode: AccessMode, owner: Id, thread: Id, seconds: int, actor: string, leaseId: string,
        rows: seq<string>)
    | Renew(lease: ResourceLease, seconds: int, actor: string)
    | Release(lease: ResourceLease, actor: string)
    | SweepLeases(key: string, rows: seq<string>)

  /** Calls that bypass the closed protocol. */
  datatype RawStep =
    | Append(thread: Id, drafts: seq<Draft>, expectedRevision: nat)
    | Enqueue(
        thread: Id, runId: Id, priority: int, availableAt: Time, maxAttempts: int, executorKey: Option<string>,
        actor: string)
    | FinishClaim(claim: WorkerClaim, succeeded: bool, error: Option<string>, retryable: bool, delay: int)

  datatype Step =
    | Work(work: WorkStep) | Desk(desk: DeskStep) | Gate(gate: GateStep) | Hold(hold: LeaseStep) | Raw(raw: RawStep)

  function ApplyWork(s: Store, step: WorkStep): Result<Store> {
    var now := s.clock;
    match step
    case Claim(worker, leaseId, seconds, keys, rows, pick) =>
      var claimed := ClaimNextRun(s, worker, leaseId, seconds, keys, rows, pick, now);
      if claimed.Err? then Err(claimed.error) else Ok(claimed.value.0)
    case Start(claim) => StartClaimedRun(s, claim, now)
    case Heartbeat(claim, seconds) => HeartbeatRun(s, claim, seconds, now)
    case Checkpoint(claim, checkpoint) => RecordClaimedCheckpoint(s, claim, checkpoint, now)
    case Finish(claim, executorKey, version, outcome) =>
      FinishClaimedExecution(s, claim, executorKey, version, outcome, now)
    case BeginStep(claim, stepId, ordinal, kind, providerKey, version, inputs) =>
      BeginClaimedStep(s, claim, stepId, ordinal, kind, providerKey, version, inputs, now)
    case FinishStep(claim, stepId, outputs, verifierResult, errorCode) =>
      FinishClaimedStep(s, claim, stepId, outputs, verifierResult, errorCode, now)
    case Finalize(claim, executorKey, primary, report, summary, supporting) =>
      FinalizeDelivery(s, claim, executorKey, primary, report, summary, supporting, now)
  }

  function ApplyDesk(s: Store, step: DeskStep): Result<Store> {
    var now := s.clock;
    match step
    case Submit(sub) => SubmitTask(s, sub, now)
    case Bind(thread, runId, task, agent, context, expectedRevision, actor) =>
      BindRunSnapshots(s, thread, runId, task, agent, context, expectedRevision, Origin(actor, now, None))
    case AcceptMessage(message, route, project, agent, seen, ids, rows) =>
      Accept(s, message, route, project, agent, seen, ids, rows, now)
    case Resolve(stored, platform, actor, decision, target, kind, reason, agent, seen, ids, rows) =>
      ResolveRoute(s, stored, platform, actor, decision, target, kind, reason, agent, seen, ids, rows, now)
    case Present(index, actor) => PresentDelivery(s, index, actor, now)
  }

  function ApplyGate(s: Store, step: GateStep): Result<Store> {
    var now := s.clock;
    match step
    case CreateIntent(thread, runId, capability, request, key, requiresApproval, intentId, actor) =>
      CreateActionIntent(
        s, thread, runId, capability, request, key, requiresApproval, intentId, Origin(actor, now, None))
    case AskApproval(intentId, riskLevel, requestedBy, reason, ttl, policy, approvalId) =>
      CreateApproval(s, intentId, riskLevel, requestedBy, reason, ttl, policy, approvalId, now)
    case Decide(approvalId, decision, actor, evidence) =>
      DecideApproval(s, approvalId, decision, actor, evidence, now)
    case ExpireApprovals(rows, threads) => ExpirePendingApprovals(s, now, rows, threads)
    case TakeIntent(intentId, worker, leaseId, seconds, reconciling) =>
      ClaimAction(s, intentId, worker, leaseId, seconds, reconciling, now)
    case Receipt(taken, outcome, provider, response, receiptId) =>
      RecordReceipt(s, taken, outcome, provider, response, receiptId, now)
    case RecoverActions(rows) => Ok(RecoverIncomplete(s, now, rows))
  }

  function ApplyHold(s: Store, step: LeaseStep): Result<Store> {
    var now := s.clock;
    match step
    case Acquire(key, mode, owner, thread, seconds, actor, leaseId, rows) =>
      AcquireResource(s, key, mode, owner, thread, seconds, actor, leaseId, rows, now)
    case Renew(lease, seconds, actor) => RenewResource(s, lease, seconds, actor, now)
    case Release(lease, actor) => ReleaseResource(s, lease, actor, now)
    case SweepLeases(key, rows) => Ok(ExpireLeases(s, key, now, rows))
  }

  function ApplyRaw(s: Store, step: RawStep): Result<Store> {
    var now := s.clock;
    match step
    case Append(thread, drafts, expectedRevision) => AppendThreadEvents(s, thread, drafts, expectedRevision)
    case Enqueue(thread, runId, priority, availableAt, maxAttempts, executorKey, actor) =>
      EnqueueRun(s, thread, runId, priority, availableAt, maxAttempts, executorKey, actor, now)
    case FinishClaim(claim, succeeded, error, retryable, delay) =>
      FinishRunClaim(s, claim, succeeded, error, retryable, delay, now)
  }

  function Apply(s: Store, step: Step): Result<Store> {
    match step
    case Work(work) => ApplyWork(s, work)
    case Desk(desk) => ApplyDesk(s, desk)
    case Gate(gate) => ApplyGate(s, gate)
    case Hold(hold) => ApplyHold(s, hold)
    case Raw(raw) => ApplyRaw(s, raw)
  }

  /** One call at a time: it commits, or it raises and leaves the store as it was. */
  function After(s: Store, now: Time, step: Step): Store {
    Committed(s, Apply(Tick(s, now), step))
  }

  /** A claim takes what its query answers. */
  ghost predicate Answered(s: Store, step: WorkStep) {
    match step
    case Claim(_, _, _, keys, rows, pick) => Picks(Sweep(s, s.clock, rows), s.clock, keys, pick)
    case _ => true
  }

  ghost predicate StepAnswered(s: Store, step: Step) {
    match step
    case Work(work) => Answered(s, work)
    case _ => true
  }

  /** A claim sweeps every job whose last lease ran out. */
  ghost predicate StepSwept(s: Store, step: Step) {
    match step
    case Work(Claim(_, _, _, _, rows, _)) => SweepRows(s, s.clock, rows)
    case _ => true
  }

  /** A call can happen at any later time; a claim sweeps and takes what its queries answer. */
  ghost predicate Enabled(s: Store, now: Time, step: Step) {
    s.clock <= now && StepSwept(Tick(s, now), step) && StepAnswered(Tick(s, now), step)
  }

  /** The closed protocol: no raw calls, direct submissions under their own ids, coordinators that
      pass on what they have read, however long ago. */
  ghost predicate Closed(s: Store, now: Time, step: Step) {
    match step
    case Raw(_) => false
    case Desk(Submit(sub)) => sub.threadId.Lit? && sub.runId.Lit? && sub.branchId.Lit? && FitSubmission(sub)
    case Desk(Bind(_, _, task, _, context, _, _)) => StoredInputs(task, context)
    case Desk(AcceptMessage(_, _, _, _, seen, ids, _)) => GoodRead(Tick(s, now), seen, ids)
    case Desk(Resolve(_, _, _, _, _, _, _, _, seen, ids, _)) => GoodRead(Tick(s, now), seen, ids)
    case _ => true
  }

  type Trace = seq<(Time, Step)>

  function AfterCall(s: Store, call: (Time, Step)): Store {
    After(s, call.0, call.1)
  }

  ghost predicate CallEnabled(s: Store, call: (Time, Step)) {
    Enabled(s, call.0, call.1)
  }

  ghost predicate CallClosed(s: Store, call: (Time, Step)) {
    Closed(s, call.0, call.1)
  }

  /** The store after a sequence of calls. */
  function Execute(s: Store, trace: Trace): Store {
    Fold(AfterCall, s, trace)
  }

  ghost predicate Possible(s: Store, trace: Trace) {
    AllAllowed(AfterCall, CallEnabled, s, trace)
  }

  ghost predicate ClosedTrace(s: Store, trace: Trace) {
    AllAllowed(AfterCall, CallClosed, s, trace)
  }

  // =========================================================================== every run
  // Every run of the runtime, and every run of its closed protocol, keeps the invariants.

  // ---------------------------------------------------------------- every call

  lemma WorkSound(s: Store, step: WorkStep)
    requires ApplyWork(s, step).Ok?
    requires Answered(s, step)
    ensures Sound(s, Committed(s, ApplyWork(s, step)))
  {
    hide Sound, Confined, ClaimNextRun, StartClaimedRun, HeartbeatRun, BeginClaimedStep, FinishClaimedStep,
      FinalizeDelivery, Picks, Sweep, Emit, SchedulerInv, SettleJob;
    match step
    case Claim(worker, leaseId, seconds, keys, rows, pick) =>
      ClaimNextConfined(s, worker, leaseId, seconds, keys, rows, pick, s.clock);
      if SchedulerInv(s) {
        ClaimNextKeepsInv(s, worker, leaseId, seconds, keys, rows, pick);
      }
      JobWorkSound(s, ClaimNextRun(s, worker, leaseId, seconds, keys, rows, pick, s.clock).value.0);
    case Start(claim) => StartSound(s, claim, s.clock);
    case Heartbeat(claim, seconds) => HeartbeatSound(s, claim, seconds);
    case Checkpoint(claim, checkpoint) =>
      var run := s.threads[claim.threadId].runs[claim.runId];
      EmitSound(s, claim.threadId, Origin(claim.worker, s.clock, None),
                CheckpointRecorded(claim.runId, checkpoint, run.checkpointSequence + 1));
    case Finish(claim, executorKey, version, outcome) =>
      var job := s.jobs[claim.runId];
      var how := SettlementOf(outcome, job, s.clock);
      var origin := Origin(claim.worker, s.clock, None);
      var ended := SettleThread(s, claim, how, OutputOf(outcome), ErrorOf(outcome), origin).value;
      SettleThreadSound(s, claim, how, OutputOf(outcome), ErrorOf(outcome), origin);
      ThreadsKeepJobs(s, ended);
      SettleJobSound(ended, claim.runId, how, LastErrorOf(outcome), origin);
      SoundTransitive(s, ended, SettleJob(ended, claim.runId, how, LastErrorOf(outcome), origin));
    case BeginStep(claim, stepId, ordinal, kind, providerKey, version, inputs) =>
      BeginStepSound(s, claim, stepId, ordinal, kind, providerKey, version, inputs, s.clock);
    case FinishStep(claim, stepId, outputs, verifierResult, errorCode) =>
      FinishStepSound(s, claim, stepId, outputs, verifierResult, errorCode, s.clock);
    case Finalize(claim, executorKey, primary, report, summary, supporting) =>
      FinalizeSound(s, claim, executorKey, primary, report, summary, supporting, s.clock);
  }

  lemma DeskSound(s: Store, step: DeskStep)
    requires ApplyDesk(s, step).Ok?
    ensures Sound(s, Committed(s, ApplyDesk(s, step)))
  {
    hide Sound, Confined, SubmitTask, Accept, ResolveRoute, PresentDelivery, ResolveInboxRoute, Tally, Emit;
    match step
    case Submit(sub) => SubmitSound(s, sub, s.clock);
    case Bind(thread, runId, task, agent, context, expectedRevision, actor) =>
      EmitSound(s, thread, Origin(actor, s.clock, None), SnapshotsBound(runId, task, agent, context));
    case AcceptMessage(message, route, project, agent, seen, ids, rows) =>
      AcceptSound(s, message, route, project, agent, seen, ids, rows, s.clock);
    case Resolve(stored, platform, actor, decision, target, kind, reason, agent, seen, ids, rows) =>
      ResolveRouteSound(s, stored, platform, actor, decision, target, kind, reason, agent, seen, ids, rows, s.clock);
    case Present(index, actor) => PresentSound(s, index, actor, s.clock);
  }

  lemma GateSound(s: Store, step: GateStep)
    requires ApplyGate(s, step).Ok?
    ensures Sound(s, Committed(s, ApplyGate(s, step)))
  {
    hide Sound, Confined, CreateActionIntent, CreateApproval, ClaimAction, RecordReceipt, RecoverIncomplete,
      ClearAttention, WriteApproval;
    match step
    case CreateIntent(thread, runId, capability, request, key, requiresApproval, intentId, actor) =>
      var origin := Origin(actor, s.clock, None);
      CreateIntentSound(s, thread, runId, capability, request, key, requiresApproval, intentId, origin);
    case AskApproval(intentId, riskLevel, requestedBy, reason, ttl, policy, approvalId) =>
      CreateApprovalSound(s, intentId, riskLevel, requestedBy, reason, ttl, policy, approvalId, s.clock);
    case Decide(approvalId, decision, actor, evidence) =>
      var row := s.approvals[approvalId];
      if row.status == decision {
        SoundReflexive(s);
      } else {
        var decided := RecordDecision(s, approvalId, decision, actor, evidence, s.clock);
        var thread := s.intents[row.intentId].threadId;
        RecordDecisionSound(s, approvalId, decision, actor, evidence, s.clock);
        ClearAttentionSound(decided, thread, s.clock);
        SoundTransitive(s, decided, ClearAttention(decided, thread, s.clock).value);
      }
    case ExpireApprovals(rows, threads) =>
      var expired := ExpireRows(s, s.clock, rows);
      ExpireRowsSound(s, s.clock, rows);
      ClearAllSound(expired, s.clock, threads);
      SoundTransitive(s, expired, ClearAll(expired, s.clock, threads).value);
    case TakeIntent(intentId, worker, leaseId, seconds, reconciling) =>
      ClaimActionSound(s, intentId, worker, leaseId, seconds, reconciling, s.clock);
    case Receipt(taken, outcome, provider, response, receiptId) =>
      RecordReceiptSound(s, taken, outcome, provider, response, receiptId, s.clock);
    case RecoverActions(rows) => RecoverSound(s, s.clock, rows);
  }

  /** Rewriting a lease row so that it holds no more than before. */
  lemma RewriteSound(s: Store, lease: string, row: ResourceLease, origin: Origin, event: ResourceEvent)
    requires lease in s.leases && !event.LeaseAcquired?
    requires var was := Row(s.leases, lease);
      row == was.(status := row.status, expiresAt := row.expiresAt) && (Holding(row, s.clock) ==> Holding(was, s.clock))
    ensures Sound(s, WriteLease(s, row, origin, event))
  {
    hide Sound, Confined;
    var t := WriteLease(s, row, origin, event);
    WriteLeaseConfined(s, row, origin, event, t.fences);
    assert t.(fences := t.fences) == t;
    if ResourcesInv(s) {
      assert s.leases[lease].leaseId == lease;
      RewriteKeepsInv(s, row, origin, event);
    }
    ResourceWorkSound(s, t);
  }

  lemma HoldSound(s: Store, step: LeaseStep)
    requires ApplyHold(s, step).Ok?
    ensures Sound(s, Committed(s, ApplyHold(s, step)))
  {
    hide Sound, Confined, AcquireResource, ExpireLeases, WriteLease;
    match step
    case Acquire(key, mode, owner, thread, seconds, actor, leaseId, rows) =>
      AcquireSound(s, key, mode, owner, thread, seconds, actor, leaseId, rows);
    case Renew(lease, seconds, actor) =>
      var until := s.clock + seconds;
      RewriteSound(s, lease.leaseId, s.leases[lease.leaseId].(expiresAt := until), Origin(actor, s.clock, None),
                   LeaseRenewed(lease.leaseId, lease.token, until));
    case Release(lease, actor) =>
      RewriteSound(s, lease.leaseId, s.leases[lease.leaseId].(status := LeaseStatus.Released),
                   Origin(actor, s.clock, None), LeaseReleased(lease.leaseId, lease.token));
    case SweepLeases(key, rows) =>
      ExpireLeasesConfined(s, key, s.clock, rows);
      if ResourcesInv(s) {
        ExpireKeepsInv(s, key, s.clock, rows);
      }
      ResourceWorkSound(s, ExpireLeases(s, key, s.clock, rows));
  }

  lemma ApplySound(s: Store, step: Step)
    requires Apply(s, step).Ok?
    requires StepAnswered(s, step)
    ensures Sound(s, Committed(s, Apply(s, step)))
  {
    hide Sound, ApplyWork, ApplyDesk, ApplyGate, ApplyHold, ApplyRaw, Picks, Sweep;
    match step
    case Work(work) => WorkSound(s, work);
    case Desk(desk) => DeskSound(s, desk);
    case Gate(gate) => GateSound(s, gate);
    case Hold(hold) => HoldSound(s, hold);
    case Raw(raw) =>
      RawSound(s, raw);
  }

  lemma RawSound(s: Store, step: RawStep)
    requires ApplyRaw(s, step).Ok?
    ensures Sound(s, Committed(s, ApplyRaw(s, step)))
  {
    hide Sound, Confined, EmitDrafts, WriteJob;
    match step
    case Append(thread, drafts, expectedRevision) =>
      if forall d :: d in drafts ==> Recorded(s.journal, d) {
        SoundReflexive(s);
      } else {
        EmitDraftsSound(s, thread, drafts);
      }
    case Enqueue(thread, runId, priority, availableAt, maxAttempts, executorKey, actor) =>
      var run := s.threads[thread].runs[runId];
      var key := if executorKey.Some? && executorKey.value != "" then executorKey.value else run.executorKey;
      if runId in s.jobs {
        SoundReflexive(s);
      } else {
        InsertJobSound(s, NewJob(runId, thread, priority, availableAt, maxAttempts, key, s.clock),
                       Origin(actor, s.clock, None));
      }
    case FinishClaim(claim, succeeded, error, retryable, delay) =>
      var job := s.jobs[claim.runId];
      var how :=
        if succeeded then Done
        else if retryable && job.attempts < job.maxAttempts then Retry(RetryAt(s.clock, delay))
        else GiveUp;
      SettleJobSound(s, claim.runId, how, error, Origin(claim.worker, s.clock, None));
  }

  lemma AfterSound(s: Store, now: Time, step: Step)
    requires Enabled(s, now, step)
    ensures Sound(s, After(s, now, step))
  {
    hide Sound, Apply, Picks, Sweep, SweepRows;
    SoundReflexive(s);
    if Apply(Tick(s, now), step).Ok? {
      TickSound(s, now);
      ApplySound(Tick(s, now), step);
      SoundTransitive(s, Tick(s, now), After(s, now, step));
    }
  }

  /** Every run of every caller keeps replay, scheduler, action and lease invariants. */
  lemma {:induction false} EveryRunSound(s: Store, trace: Trace)
    requires OpenInv(s) && Possible(s, trace)
    ensures OpenInv(Execute(s, trace)) && Advance(s, Execute(s, trace))
    decreases |trace|
  {
    hide OpenInv, After, Enabled, Sound;
    if trace == [] {
      assert Advance(s, s) by {
        ActionsAdvanceReflexive(s);
      }
    } else {
      var n := |trace| - 1;
      EveryRunSound(s, trace[..n]);
      var before := Execute(s, trace[..n]);
      AfterSound(before, trace[n].0, trace[n].1);
      SoundKeepsOpen(before, Execute(s, trace));
      AdvanceTransitive(s, before, Execute(s, trace));
    }
  }

  lemma EmptyIsSound(start: Time)
    ensures OpenInv(EmptyStore(start))
  {
    hide ClaimNextRun, FoldJob, Reduce, Tally;
    var s := EmptyStore(start);
    assert forall i :: BooksOK(s, i) && GateOK(s, i);
  }

  // ---------------------------------------------------------------- the closed protocol

  ghost predicate ClosedInv(s: Store) {
    OpenInv(s) && AgreeInv(s) && DeliveryInv(s) && InboxInv(s)
  }

  lemma AttentionKeepsShape(p: ThreadProjection, q: ThreadProjection, l: Id)
    requires Shaped(p, l) && OnlyAttention(p, q)
    ensures Shaped(q, l)
  {
    assert SameFrame(p, q);
    hide LineageOK, BranchesOK, ContextsOK, KeysOK, SameFrame, Led;
    FrameKeepsLinks(p, q);
    SameLineageKeeps(p, q);
    FrameKeepsBranches(p, q);
    FrameKeepsContexts(p, q);
    FrameKeepsKeys(p, q);
  }

  lemma HarmlessAgrees(s: Store, u: Store)
    requires AgreeInv(s) && Harmless(s, u)
    ensures AgreeInv(u)
  {
    hide Shaped, Matches, Plain;
    forall t | t in u.threads
      ensures AgreesOn(u, t)
    {
      assert AgreesOn(s, t) && OnlyAttention(s.threads[t], u.threads[t]);
      var l :| Shaped(s.threads[t], l);
      AttentionKeepsShape(s.threads[t], u.threads[t], l);
      forall r | r in u.threads[t].runs
        ensures Coupled(u, t, r)
      {
        assert Coupled(s, t, r);
      }
    }
  }

  /** The invariants that read the journal's marks follow from plainness. */
  lemma PlainKeepsBooks(s: Store, u: Store)
    requires OpenInv(s) && OpenInv(u) && DeliveryInv(s) && InboxInv(s) && Plain(s, u)
    ensures DeliveryInv(u) && InboxInv(u)
  {
    hide OpenInv, Faithful, DeliveryInv;
    OpenParts(s);
    OpenParts(u);
    assert DeliveryInv(u) by {
      forall t
        ensures Undelivered(s, u, t)
      {
        assert forall i :: |s.journal| <= i < |u.journal| ==> !Marked(u.journal[i]);
      }
      UndeliveredKeeps(s, u);
    }
    forall key
      ensures OnceFor(u, key)
    {
      assert OnceFor(s, key);
      PlainTally(s, u, key, AnEffect);
      PlainTally(s, u, key, AProposal);
      PlainTally(s, u, key, ADeparture);
    }
  }

  lemma StepWorkClosed(s: Store, u: Store)
    requires ClosedInv(s) && OpenInv(u) && StepWork(s, u)
    ensures ClosedInv(u)
  {
    hide OpenInv, AgreeInv, DeliveryInv, InboxInv, Plain, Sound, Advance, Counts;
    var v := u.(steps := s.steps);
    AsideSound(u, v);
    SoundKeepsOpen(u, v);
    PlainKeepsBooks(s, v);
    SameRowsAgree(s, u);
    SameRowsKeep(v, u);
    assert Uncounted(v, u);
    UncountedKeepsOnce(v, u);
  }

  lemma WorkAgrees(s: Store, step: WorkStep)
    requires OpenInv(s) && AgreeInv(s) && ApplyWork(s, step).Ok?
    requires Answered(s, step)
    requires !step.BeginStep? && !step.FinishStep? && !step.Finalize?
    ensures AgreeInv(Committed(s, ApplyWork(s, step))) && Plain(s, Committed(s, ApplyWork(s, step)))
  {
    hide OpenInv, AgreeInv, Confined, ClaimNextRun, StartClaimedRun, FinishClaimedExecution, Picks, Sweep,
      BeginClaimedStep, FinalizeDelivery, FinishClaimedStep, Harmless, Emit;
    var now := s.clock;
    match step
    case Claim(worker, leaseId, seconds, keys, rows, pick) =>
      ClaimNextAgrees(s, worker, leaseId, seconds, keys, rows, pick, now);
      ClaimNextConfined(s, worker, leaseId, seconds, keys, rows, pick, now);
      ConfinedPlain(s, ApplyWork(s, step).value, Jobs);
    case Start(claim) =>
      StartAgrees(s, claim, now);
      StartPlain(s, claim, now);
    case Heartbeat(claim, seconds) =>
      var u := HeartbeatRun(s, claim, seconds, now).value;
      OwnedRun(s, claim.runId);
      RowAgrees(s, u, claim.runId, u.jobs[claim.runId]);
      assert Plain(s, u);
    case Checkpoint(claim, checkpoint) =>
      CheckpointAgrees(s, claim, checkpoint, now);
      var number := s.threads[claim.threadId].runs[claim.runId].checkpointSequence + 1;
      EmitPlain(s, claim.threadId, Origin(claim.worker, now, None),
                CheckpointRecorded(claim.runId, checkpoint, number));
    case Finish(claim, executorKey, version, outcome) =>
      FinishExecutionAgrees(s, claim, executorKey, version, outcome, now);
      FinishExecutionPlain(s, claim, executorKey, version, outcome, now);
  }

  /** From s to u the inbox books gained no entry. */
  ghost predicate Uncounted(s: Store, u: Store) {
    && s.journal <= u.journal
    && forall i, key, what: Tracked :: |s.journal| <= i < |u.journal| ==> !Counts(u.journal[i], key, what)
  }

  lemma UncountedTransitive(s: Store, t: Store, u: Store)
    requires Uncounted(s, t) && Uncounted(t, u)
    ensures Uncounted(s, u)
  {
    hide Counts;
  }

  lemma PlainUncounted(s: Store, u: Store)
    requires Plain(s, u)
    ensures Uncounted(s, u)
  {
    forall i, key, what: Tracked | |s.journal| <= i < |u.journal|
      ensures !Counts(u.journal[i], key, what)
    {
      assert !Marked(u.journal[i]);
    }
  }

  lemma UncountedKeepsOnce(s: Store, u: Store)
    requires InboxInv(s) && Uncounted(s, u) && u.inbox == s.inbox
    ensures InboxInv(u)
  {
    hide Counts;
    var more := u.journal[|s.journal|..];
    assert u.journal == s.journal + more;
    forall key
      ensures OnceFor(u, key)
    {
      assert OnceFor(s, key);
      TallyQuiet(s.journal, more, key, AnEffect);
      TallyQuiet(s.journal, more, key, AProposal);
      TallyQuiet(s.journal, more, key, ADeparture);
    }
  }

  lemma CloseThreadUncounted(s: Store, claim: WorkerClaim, delivery: Id, primary: Artifact, origin: Origin)
    requires claim.threadId in s.threads && CloseThread(s, claim, delivery, primary, origin).Ok?
    ensures Uncounted(s, Committed(s, CloseThread(s, claim, delivery, primary, origin)))
  {
    hide Emit, Plain;
    var t := claim.threadId;
    var change := RunStateChanged(claim.runId, RunState.Running, RunState.Completed, [], Some(Some(primary)), None);
    var moved := ThreadStateChanged(s.threads[t].actual, ThreadState.Delivered, []);
    var a := Emit(s, t, origin, DeliveryRecorded(delivery)).value;
    var b := Emit(a, t, origin, change).value;
    var c := Emit(b, t, origin, moved).value;
    var d := Emit(c, t, origin, AttentionChanged(AttentionState.DeliveryReady)).value;
    assert Uncounted(s, Committed(s, Emit(s, t, origin, DeliveryRecorded(delivery)))) by {
      EmitMarks(s, t, origin, DeliveryRecorded(delivery));
    }
    EmitPlain(a, t, origin, change);
    EmitPlain(b, t, origin, moved);
    EmitPlain(c, t, origin, AttentionChanged(AttentionState.DeliveryReady));
    PlainTransitive(a, b, c);
    PlainTransitive(a, c, d);
    PlainUncounted(a, d);
  }

  lemma HarmlessIsPlain(s: Store, u: Store)
    requires Harmless(s, u)
    ensures Plain(s, u)
  {
  }

  lemma SameJournalUncounted(s: Store, t: Store, u: Store)
    requires Uncounted(s, t) && u.journal == t.journal
    ensures Uncounted(s, u)
  {
    hide Counts;
  }

  /** Delivering counts for no message. */
  lemma FinalizeUncounted(
    s: Store, claim: WorkerClaim, executorKey: string, primary: Artifact, report: Artifact, summary: Artifact,
    supporting: seq<Artifact>, now: Time)
    requires FinalizeDelivery(s, claim, executorKey, primary, report, summary, supporting, now).Ok?
    ensures Uncounted(
      s, Committed(s, FinalizeDelivery(s, claim, executorKey, primary, report, summary, supporting, now)))
  {
    hide Uncounted, NextDelivery, Log, SettleJob, CloseThread, Harmless, Plain;
    var t := claim.threadId;
    var row := NextDelivery(s, claim, primary, report, summary, supporting, now);
    var origin, outbox := Origin(claim.worker, now, None), Origin("outbox", now, None);
    var stream, notice := DeliveryStream(row.deliveryId), DeliveryNotified(OutboxOf(row.deliveryId));
    var prepared := Log(s, stream, Some(t), origin, DeliveryPrepared(row.version));
    LogPlain(s, stream, Some(t), origin, DeliveryPrepared(row.version));
    LogKeepsTables(s, stream, Some(t), origin, DeliveryPrepared(row.version));
    var closed := CloseThread(prepared, claim, row.deliveryId, primary, origin).value;
    CloseThreadUncounted(prepared, claim, row.deliveryId, primary, origin);
    CloseThreadOnly(prepared, claim, row.deliveryId, primary, origin);
    var settled := SettleJob(closed, claim.runId, Done, None, origin);
    SettleJobPlain(closed, claim.runId, Done, None, origin);
    var noted := Log(settled, stream, Some(t), outbox, notice);
    LogPlain(settled, stream, Some(t), outbox, notice);
    HarmlessIsPlain(s, prepared);
    HarmlessIsPlain(settled, noted);
    PlainUncounted(s, prepared);
    PlainTransitive(closed, settled, noted);
    PlainUncounted(closed, noted);
    UncountedTransitive(s, prepared, closed);
    UncountedTransitive(s, closed, noted);
    SameJournalUncounted(
      s, noted, FinalizeDelivery(s, claim, executorKey, primary, report, summary, supporting, now).value);
  }

  lemma FinalizeClosed(
    s: Store, claim: WorkerClaim, executorKey: string, primary: Artifact, report: Artifact, summary: Artifact,
    supporting: seq<Artifact>, now: Time)
    requires ClosedInv(s)
    requires FinalizeDelivery(s, claim, executorKey, primary, report, summary, supporting, now).Ok?
    ensures ClosedInv(Committed(s, FinalizeDelivery(s, claim, executorKey, primary, report, summary, supporting, now)))
  {
    hide OpenInv, AgreeInv, DeliveryInv, InboxInv, Uncounted, Sound, Delivers, Advance, NextDelivery, FinalizeDelivery,
      Faithful;
    var u := FinalizeDelivery(s, claim, executorKey, primary, report, summary, supporting, now).value;
    FinalizeSound(s, claim, executorKey, primary, report, summary, supporting, now);
    SoundKeepsOpen(s, u);
    FinalizeAgrees(s, claim, executorKey, primary, report, summary, supporting, now);
    OpenParts(s);
    OpenParts(u);
    AdvanceJournal(s, u);
    FinalizeDelivers(s, claim, executorKey, primary, report, summary, supporting, now);
    var row := NextDelivery(s, claim, primary, report, summary, supporting, now);
    DeliversKeeps(
      s, u, row, OutboxItem(OutboxOf(row.deliveryId), row.deliveryId, claim.threadId, claim.runId, summary, now));
    FinalizeUncounted(s, claim, executorKey, primary, report, summary, supporting, now);
    UncountedKeepsOnce(s, u);
  }

  lemma WorkClosed(s: Store, step: WorkStep)
    requires ClosedInv(s) && ApplyWork(s, step).Ok?
    requires Answered(s, step)
    ensures ClosedInv(Committed(s, ApplyWork(s, step)))
  {
    hide OpenInv, AgreeInv, DeliveryInv, InboxInv, Plain, Sound, ClaimNextRun, StartClaimedRun, HeartbeatRun,
      RecordClaimedCheckpoint, FinishClaimedExecution, BeginClaimedStep, FinishClaimedStep, FinalizeDelivery, Picks,
      Sweep, StepWork, Advance;
    var u := ApplyWork(s, step).value;
    WorkSound(s, step);
    SoundKeepsOpen(s, u);
    match step
    case BeginStep(claim, stepId, ordinal, kind, providerKey, version, inputs) =>
      BeginStepWork(s, claim, stepId, ordinal, kind, providerKey, version, inputs, s.clock);
      StepWorkClosed(s, u);
    case FinishStep(claim, stepId, outputs, verifierResult, errorCode) =>
      FinishStepWork(s, claim, stepId, outputs, verifierResult, errorCode, s.clock);
      StepWorkClosed(s, u);
    case Finalize(claim, executorKey, primary, report, summary, supporting) =>
      FinalizeClosed(s, claim, executorKey, primary, report, summary, supporting, s.clock);
    case _ =>
      WorkAgrees(s, step);
      PlainKeepsBooks(s, u);
  }

  lemma GateHarmless(s: Store, step: GateStep)
    requires OpenInv(s) && ApplyGate(s, step).Ok?
    ensures Harmless(s, Committed(s, ApplyGate(s, step)))
  {
    hide OpenInv, Harmless, CreateActionIntent, CreateApproval, DecideApproval, ClaimAction, RecordReceipt,
      RecoverIncomplete, ActionsAdvance, Advance, ClearAll, Confined, Counts, ExpireRows, Plain;
    match step
    case CreateIntent(thread, runId, capability, request, key, requiresApproval, intentId, actor) =>
      CreateIntentHarmless(s, thread, runId, capability, request, key, requiresApproval, intentId, Origin(actor,
          s.clock, None));
    case AskApproval(intentId, riskLevel, requestedBy, reason, ttl, policy, approvalId) =>
      CreateApprovalHarmless(s, intentId, riskLevel, requestedBy, reason, ttl, policy, approvalId, s.clock);
    case Decide(approvalId, decision, actor, evidence) =>
      DecideHarmless(s, approvalId, decision, actor, evidence, s.clock);
    case ExpireApprovals(rows, threads) =>
      var rest := ExpireRows(s, s.clock, rows);
      ExpireRowsHarmless(s, s.clock, rows);
      ExpireRowsSound(s, s.clock, rows);
      ClearAllHarmless(rest, s.clock, threads);
      HarmlessTransitive(s, rest, ClearAll(rest, s.clock, threads).value);
    case TakeIntent(intentId, worker, leaseId, seconds, reconciling) =>
      ClaimActionHarmless(s, intentId, worker, leaseId, seconds, reconciling, s.clock);
    case Receipt(taken, outcome, provider, response, receiptId) =>
      RecordReceiptConfined(s, taken, outcome, provider, response, receiptId, s.clock);
      ConfinedPlain(s, RecordReceipt(s, taken, outcome, provider, response, receiptId, s.clock).value, Area.Actions);
    case RecoverActions(rows) => RecoverHarmless(s, s.clock, rows);
  }

  lemma GateClosed(s: Store, step: GateStep)
    requires ClosedInv(s) && ApplyGate(s, step).Ok?
    ensures ClosedInv(Committed(s, ApplyGate(s, step)))
  {
    hide OpenInv, AgreeInv, DeliveryInv, InboxInv, Sound, ApplyGate, Advance, Plain;
    GateSound(s, step);
    SoundKeepsOpen(s, ApplyGate(s, step).value);
    GateHarmless(s, step);
    HarmlessAgrees(s, ApplyGate(s, step).value);
    PlainKeepsBooks(s, ApplyGate(s, step).value);
  }

  lemma HoldConfined(s: Store, step: LeaseStep)
    requires ApplyHold(s, step).Ok?
    ensures Confined(s, Committed(s, ApplyHold(s, step)), Area.Resources)
  {
    hide Confined, WriteLease, ExpireLeases;
    var t := ApplyHold(s, step).value;
    match step
    case Acquire(key, mode, owner, thread, seconds, actor, leaseId, rows) =>
      var swept := ExpireLeases(s, key, s.clock, rows);
      ExpireLeasesConfined(s, key, s.clock, rows);
      var row := ResourceLease(
        leaseId, key, mode, owner, thread, LastToken(swept, key) + 1, s.clock, s.clock + seconds, LeaseStatus.Active);
      WriteLeaseConfined(swept, row, Origin(actor, s.clock, None), LeaseAcquired(leaseId, mode, row.token,
          row.expiresAt),
                         swept.fences[key := row.token]);
      ConfinedTransitive(s, swept, t, Area.Resources);
    case Renew(lease, seconds, actor) =>
      WriteLeaseConfined(s, s.leases[lease.leaseId].(expiresAt := s.clock + seconds), Origin(actor, s.clock, None),
                         LeaseRenewed(lease.leaseId, lease.token, s.clock + seconds), t.fences);
      assert t.(fences := t.fences) == t;
    case Release(lease, actor) =>
      WriteLeaseConfined(s, s.leases[lease.leaseId].(status := LeaseStatus.Released), Origin(actor, s.clock, None),
                         LeaseReleased(lease.leaseId, lease.token), t.fences);
      assert t.(fences := t.fences) == t;
    case SweepLeases(key, rows) => ExpireLeasesConfined(s, key, s.clock, rows);
  }

  lemma HoldClosed(s: Store, step: LeaseStep)
    requires ClosedInv(s) && ApplyHold(s, step).Ok?
    ensures ClosedInv(Committed(s, ApplyHold(s, step)))
  {
    hide OpenInv, AgreeInv, DeliveryInv, InboxInv, Harmless, Sound, Confined, ApplyHold, Advance, Plain;
    HoldSound(s, step);
    SoundKeepsOpen(s, ApplyHold(s, step).value);
    HoldConfined(s, step);
    ConfinedPlain(s, ApplyHold(s, step).value, Area.Resources);
    HarmlessAgrees(s, ApplyHold(s, step).value);
    PlainKeepsBooks(s, ApplyHold(s, step).value);
  }

  // =========================================================================== closed runs
  // Every run of the closed protocol keeps Threads, Runs, jobs, deliveries and messages in agreement.

  predicate Delivering(event: Event) {
    match event.body
    case OfThread(DeliveryRecorded(_)) => event.stream.ThreadStream?
    case _ => false
  }

  /** No delivery is recorded and no step written while work is submitted or updated. */
  ghost predicate NoDelivery(s: Store, u: Store) {
    && s.journal <= u.journal && u.deliveries == s.deliveries && u.outbox == s.outbox && u.steps == s.steps
    && forall i :: |s.journal| <= i < |u.journal| ==> !Delivering(u.journal[i])
  }

  lemma NoDeliveryTransitive(s: Store, t: Store, u: Store)
    requires NoDelivery(s, t) && NoDelivery(t, u)
    ensures NoDelivery(s, u)
  {
  }

  lemma PlainNoDelivery(s: Store, u: Store)
    requires Plain(s, u)
    ensures NoDelivery(s, u)
  {
    forall i | |s.journal| <= i < |u.journal|
      ensures !Delivering(u.journal[i])
    {
      assert !Marked(u.journal[i]);
    }
  }

  lemma NoDeliveryKeeps(s: Store, u: Store)
    requires OpenInv(s) && OpenInv(u) && DeliveryInv(s) && NoDelivery(s, u)
    ensures DeliveryInv(u)
  {
    hide OpenInv, DeliveryInv, Faithful;
    OpenParts(s);
    OpenParts(u);
    forall t
      ensures Undelivered(s, u, t)
    {
      assert forall i :: |s.journal| <= i < |u.journal| ==> !Delivering(u.journal[i]);
    }
    UndeliveredKeeps(s, u);
  }

  lemma {:induction false} DraftsNoDelivery(s: Store, t: Id, drafts: seq<Draft>)
    requires forall d, delivery :: d in drafts ==> d.body != OfThread(DeliveryRecorded(delivery))
    requires EmitDrafts(s, t, drafts).Ok?
    ensures NoDelivery(s, Committed(s, EmitDrafts(s, t, drafts)))
    decreases |drafts|
  {
    hide Reduce;
    if drafts != [] {
      DraftsNoDelivery(s, t, drafts[..|drafts| - 1]);
    }
  }

  lemma SubmitNoDelivery(s: Store, sub: TaskSubmission, now: Time)
    requires SubmitTask(s, sub, now).Ok?
    ensures NoDelivery(s, Committed(s, SubmitTask(s, sub, now)))
  {
    hide EmitDrafts, Plain, NonBlank, SameSubmission, NoDelivery, Confined, Harmless, WriteJob;
    if sub.threadId in s.threads {
      PlainReflexive(s);
      PlainNoDelivery(s, s);
    } else {
      var created := EmitDrafts(s, sub.threadId, SubmissionDrafts(sub, now)).value;
      var job := NewJob(sub.runId, sub.threadId, sub.priority, now, sub.maxAttempts, sub.executorKey, now);
      var origin := Origin("scheduler", now, sub.correlation);
      assert forall d :: d in SubmissionDrafts(sub, now) ==> !(d.body.OfThread? && d.body.thread.DeliveryRecorded?);
      DraftsNoDelivery(s, sub.threadId, SubmissionDrafts(sub, now));
      assert Plain(created, Committed(created, InsertJob(created, job, origin))) by {
        WriteJobConfined(created, job.runId, job, origin,
                         RunEnqueued(job.priority, job.availableAt, job.maxAttempts, job.executorKey));
        ConfinedPlain(created, InsertJob(created, job, origin).value, Jobs);
      }
      PlainNoDelivery(created, InsertJob(created, job, origin).value);
      NoDeliveryTransitive(s, created, InsertJob(created, job, origin).value);
    }
  }

  lemma UpdateNoDelivery(s: Store, sub: ThreadUpdateSubmission, ids: seq<Id>, rows: seq<Id>)
    requires ApplyThreadUpdate(s, sub, ids, rows).Ok?
    ensures NoDelivery(s, Committed(s, ApplyThreadUpdate(s, sub, ids, rows)))
  {
    hide CancelThread, CancelForUpdate, StartNewRun, SupersededBy, Plain, NonBlank;
    var t, origin := sub.threadId, UpdateOrigin(sub);
    var change := MessageAppended(
      sub.messageKey, sub.message, sub.text, sub.kind, s.threads[t].currentBranch, sub.task, sub.context, sub.newRun);
    var noted := Emit(s, t, origin, change).value;
    assert NoDelivery(s, noted);
    var u := ApplyThreadUpdate(s, sub, ids, rows).value;
    if sub.kind.Cancel? {
      CancelThreadPlain(noted, t, ids, rows, origin);
    } else {
      var reason := SupersededBy(sub.kind);
      var cleared := CancelForUpdate(noted, t, sub.supersedesRuns, rows, reason, origin).value;
      CancelForUpdatePlain(noted, t, sub.supersedesRuns, rows, reason, origin);
      StartNewRunPlain(cleared, sub, origin);
      PlainTransitive(noted, cleared, u);
    }
    PlainNoDelivery(noted, u);
    NoDeliveryTransitive(s, noted, u);
  }

  lemma EffectNoDelivery(
    s: Store, task: Option<TaskSubmission>, update: Option<ThreadUpdateSubmission>, ids: seq<Id>, rows: seq<Id>,
    now: Time)
    requires ApplyEffect(s, task, update, ids, rows, now).Ok?
    ensures NoDelivery(s, Committed(s, ApplyEffect(s, task, update, ids, rows, now)))
  {
    hide SubmitTask, ApplyThreadUpdate, NoDelivery, Plain;
    PlainReflexive(s);
    PlainNoDelivery(s, s);
    var submitted := s;
    if task.Some? {
      submitted := SubmitTask(s, task.value, now).value;
      SubmitNoDelivery(s, task.value, now);
    }
    if update.Some? {
      UpdateNoDelivery(submitted, update.value, ids, rows);
      NoDeliveryTransitive(s, submitted, ApplyThreadUpdate(submitted, update.value, ids, rows).value);
    }
  }

  lemma AcceptanceNoDelivery(s: Store, record: InboxRecord)
    ensures NoDelivery(s, LogAcceptance(s, record).(inbox := s.inbox[record.messageKey := record]))
  {
    LogAcceptanceKeeps(s, record);
    assert NoDelivery(s, LogAcceptance(s, record)) by {
      hide Log, NoDelivery;
      var chat := ConversationStream(record.platform, record.chatId);
      var key, at := record.messageKey, record.createdAt;
      var sender := Origin(record.actorId, at, Some(key));
      var router, policy := Origin("inbox-router", at, Some(key)), Origin("inbox-policy", at, Some(key));
      var proposed, confirmed :=
        RouteProposed(record.routeType, record.routeState), RouteConfirmed(record.routeType);
      var a := Log(s, chat, None, sender, MessageReceived(key));
      var b := InboxLog(a, record, router, proposed);
      var c := if record.routeState.Confirmed? then InboxLog(b, record, policy, confirmed) else b;
      LogNoDelivery(s, chat, None, sender, MessageReceived(key));
      LogNoDelivery(a, InboxStream(key), record.threadId, router, OfInbox(proposed));
      NoDeliveryTransitive(s, a, b);
      LogNoDelivery(b, InboxStream(key), record.threadId, policy, OfInbox(confirmed));
      NoDeliveryTransitive(s, b, InboxLog(b, record, policy, confirmed));
      LogNoDelivery(c, chat, None, sender, ConversationAppended(key));
      NoDeliveryTransitive(s, c, Log(c, chat, None, sender, ConversationAppended(key)));
    }
    hide LogAcceptance;
  }

  lemma LogNoDelivery(s: Store, stream: Stream, thread: Option<Id>, origin: Origin, body: Body)
    requires !stream.ThreadStream?
    ensures NoDelivery(s, Log(s, stream, thread, origin, body))
  {
  }

  lemma AcceptNoDelivery(
    s: Store, message: InboxMessage, route: InboxRoute, project: string, agent: Artifact,
    seen: Option<ThreadProjection>, ids: seq<Id>, rows: seq<Id>, now: Time)
    requires Accept(s, message, route, project, agent, seen, ids, rows, now).Ok?
    ensures NoDelivery(s, Committed(s, Accept(s, message, route, project, agent, seen, ids, rows, now)))
  {
    hide LogAcceptance, PrepareTask, PrepareUpdate, ApplyEffect, SameInbound, ValidAcceptance, NoDelivery, Plain;
    var record := NewRecord(message, route, project);
    var stored := LogAcceptance(s, record).(inbox := s.inbox[record.messageKey := record]);
    PlainReflexive(s);
    PlainNoDelivery(s, s);
    if record.messageKey !in s.inbox {
      AcceptanceNoDelivery(s, record);
      var task := if route.routeType.NewTask? then
          Some(PrepareTask(record, OrElse(route.taskText, Strip(message.text)), agent).value) else None;
      var kind := if route.updateKind.Some? then route.updateKind.value else UpdateKind.Supplement;
      var update := if route.routeType.ThreadUpdate? && record.routeState.Confirmed? then
          Some(PrepareUpdate(seen, ids, record, route.taskText, kind, agent, message.createdAt).value) else None;
      EffectNoDelivery(stored, task, update, ids, rows, now);
      NoDeliveryTransitive(s, stored, ApplyEffect(stored, task, update, ids, rows, now).value);
    }
  }

  lemma ResolveRouteNoDelivery(
    s: Store, record: InboxRecord, resolver: string, reason: string, task: Option<TaskSubmission>,
    update: Option<ThreadUpdateSubmission>, ids: seq<Id>, rows: seq<Id>)
    requires ResolveInboxRoute(s, record, resolver, reason, task, update, ids, rows).Ok?
    ensures NoDelivery(s, Committed(s, ResolveInboxRoute(s, record, resolver, reason, task, update, ids, rows)))
  {
    hide Log, ApplyEffect, SameInbound, SameResolution, ValidResolution, NoDelivery, Plain;
    var key := record.messageKey;
    var stored := s.inbox[key];
    PlainReflexive(s);
    PlainNoDelivery(s, s);
    if stored.routeState.Proposed? {
      var origin, event := Origin(resolver, record.updatedAt, Some(key)), RouteResolved(record.routeType,
          record.routeState);
      var logged := InboxLog(s, record, origin, event);
      var settled := logged.(inbox := s.inbox[key := Resolved(stored, record, resolver, reason)]);
      LogNoDelivery(s, InboxStream(key), record.threadId, origin, OfInbox(event));
      EffectNoDelivery(settled, task, update, ids, rows, record.updatedAt);
      NoDeliveryTransitive(s, settled, ApplyEffect(settled, task, update, ids, rows, record.updatedAt).value);
    }
  }

  lemma ResolveNoDelivery(
    s: Store, stored: InboxRecord, platform: string, actor: string, decision: Decision, target: Option<Id>,
    kind: Option<UpdateKind>, reason: string, agent: Artifact, seen: Option<ThreadProjection>, ids: seq<Id>,
    rows: seq<Id>, now: Time)
    requires ResolveRoute(s, stored, platform, actor, decision, target, kind, reason, agent, seen, ids, rows, now).Ok?
    ensures NoDelivery(
      s, Committed(s, ResolveRoute(
        s, stored, platform, actor, decision, target, kind, reason, agent, seen, ids, rows, now)))
  {
    hide PrepareTask, PrepareUpdate, ResolveInboxRoute, SameDecision, NoDelivery, Plain;
    var resolver := platform + ":" + actor;
    var open := stored.(
      requiresConfirmation := false, updatedAt := now, resolvedBy := Some(resolver), resolutionReason := Some(reason));
    PlainReflexive(s);
    PlainNoDelivery(s, s);
    if stored.routeState.Proposed? {
      match decision
      case Expire =>
        ResolveRouteNoDelivery(s, open.(routeState := RouteState.Expired), resolver, reason, None, None, ids, rows);
      case AsNewTask =>
        var record := open.(
          routeType := RouteType.NewTask, routeState := RouteState.Corrected,
          threadId := Some(ThreadOf(stored.messageKey)), updateKind := None);
        ResolveRouteNoDelivery(s, record, resolver, reason, Some(PrepareTask(record, TextOf(stored.text), agent).value),
                               None, ids, rows);
      case ToThread =>
        var chosen := KindOf(kind, stored.updateKind);
        var record := open.(
          routeType := RouteType.ThreadUpdate, routeState := RouteState.Corrected, threadId := target,
          updateKind := Some(chosen));
        var update := PrepareUpdate(seen, ids, record, TextOf(stored.text), chosen, agent, now).value;
        ResolveRouteNoDelivery(s, record, resolver, reason, None, Some(update), ids, rows);
    }
  }

  // ---------------------------------------------------------------- steps of the desk

  lemma SubmitClosed(s: Store, sub: TaskSubmission)
    requires ClosedInv(s) && SubmitTask(s, sub, s.clock).Ok?
    requires sub.threadId.Lit? && FitSubmission(sub)
    ensures ClosedInv(Committed(s, SubmitTask(s, sub, s.clock)))
  {
    hide OpenInv, AgreeInv, DeliveryInv, SubmitTask, Sound, NoDelivery, FitSubmission, Advance, Tally;
    var u := SubmitTask(s, sub, s.clock).value;
    SubmitSound(s, sub, s.clock);
    SoundKeepsOpen(s, u);
    SubmitAgrees(s, sub, s.clock);
    SubmitNoDelivery(s, sub, s.clock);
    NoDeliveryKeeps(s, u);
    if sub.threadId in s.threads {
      SubmitAgain(s, sub, s.clock);
    } else {
      forall key
        ensures OnceFor(u, key)
      {
        assert OnceFor(s, key);
        SubmitTally(s, sub, s.clock, key, AnEffect);
        SubmitTally(s, sub, s.clock, key, AProposal);
        SubmitTally(s, sub, s.clock, key, ADeparture);
      }
    }
  }

  lemma BindClosed(
    s: Store, t: Id, r: Id, task: Artifact, agent: Artifact, context: Artifact, expectedRevision: nat, origin: Origin)
    requires ClosedInv(s) && StoredInputs(task, context)
    requires BindRunSnapshots(s, t, r, task, agent, context, expectedRevision, origin).Ok?
    ensures ClosedInv(Committed(s, BindRunSnapshots(s, t, r, task, agent, context, expectedRevision, origin)))
  {
    hide OpenInv, AgreeInv, DeliveryInv, InboxInv, Sound, Plain, StoredInputs, Advance, Confined, Emit;
    var u := BindRunSnapshots(s, t, r, task, agent, context, expectedRevision, origin).value;
    assert Sound(s, Committed(s, BindRunSnapshots(s, t, r, task, agent, context, expectedRevision, origin))) by {
      EmitSound(s, t, origin, SnapshotsBound(r, task, agent, context));
    }
    SoundKeepsOpen(s, u);
    BindAgrees(s, t, r, task, agent, context, expectedRevision, origin);
    assert Plain(s, Committed(s, BindRunSnapshots(s, t, r, task, agent, context, expectedRevision, origin))) by {
      EmitPlain(s, t, origin, SnapshotsBound(r, task, agent, context));
    }
    PlainKeepsBooks(s, u);
  }

  lemma AcceptClosed(
    s: Store, message: InboxMessage, route: InboxRoute, project: string, agent: Artifact,
    seen: Option<ThreadProjection>, ids: seq<Id>, rows: seq<Id>)
    requires ClosedInv(s) && GoodRead(s, seen, ids)
    requires Accept(s, message, route, project, agent, seen, ids, rows, s.clock).Ok?
    ensures ClosedInv(Committed(s, Accept(s, message, route, project, agent, seen, ids, rows, s.clock)))
  {
    hide OpenInv, AgreeInv, DeliveryInv, InboxInv, Accept, Sound, NoDelivery, GoodRead, Faithful, Advance;
    var u := Accept(s, message, route, project, agent, seen, ids, rows, s.clock).value;
    AcceptSound(s, message, route, project, agent, seen, ids, rows, s.clock);
    SoundKeepsOpen(s, u);
    AcceptAgrees(s, message, route, project, agent, seen, ids, rows, s.clock);
    AcceptNoDelivery(s, message, route, project, agent, seen, ids, rows, s.clock);
    NoDeliveryKeeps(s, u);
    OpenParts(s);
    AcceptKeepsOnce(s, message, route, project, agent, seen, ids, rows, s.clock);
  }

  lemma ResolveClosed(
    s: Store, stored: InboxRecord, platform: string, actor: string, decision: Decision, target: Option<Id>,
    kind: Option<UpdateKind>, reason: string, agent: Artifact, seen: Option<ThreadProjection>, ids: seq<Id>,
    rows: seq<Id>)
    requires ClosedInv(s) && GoodRead(s, seen, ids)
    requires ResolveRoute(
      s, stored, platform, actor, decision, target, kind, reason, agent, seen, ids, rows, s.clock).Ok?
    ensures ClosedInv(
      Committed(s, ResolveRoute(
        s, stored, platform, actor, decision, target, kind, reason, agent, seen, ids, rows, s.clock)))
  {
    hide OpenInv, AgreeInv, DeliveryInv, InboxInv, ResolveRoute, Sound, NoDelivery, GoodRead, Faithful, Advance;
    var u := ResolveRoute(s, stored, platform, actor, decision, target, kind, reason, agent, seen, ids, rows,
        s.clock).value;
    ResolveRouteSound(s, stored, platform, actor, decision, target, kind, reason, agent, seen, ids, rows, s.clock);
    SoundKeepsOpen(s, u);
    ResolveAgrees(s, stored, platform, actor, decision, target, kind, reason, agent, seen, ids, rows, s.clock);
    ResolveNoDelivery(s, stored, platform, actor, decision, target, kind, reason, agent, seen, ids, rows, s.clock);
    NoDeliveryKeeps(s, u);
    OpenParts(s);
    ResolveKeepsOnce(s, stored, platform, actor, decision, target, kind, reason, agent, seen, ids, rows, s.clock);
  }

  lemma PresentClosed(s: Store, index: nat, actor: string)
    requires ClosedInv(s) && PresentDelivery(s, index, actor, s.clock).Ok?
    ensures ClosedInv(Committed(s, PresentDelivery(s, index, actor, s.clock)))
  {
    hide OpenInv, AgreeInv, DeliveryInv, InboxInv, Sound, Advance;
    var u := PresentDelivery(s, index, actor, s.clock).value;
    PresentSound(s, index, actor, s.clock);
    SoundKeepsOpen(s, u);
    var row := s.deliveries[index];
    if row.state.Presented? {
      assert u == s;
    } else {
      var origin := Origin(actor, s.clock, None);
      var shown := Log(s, DeliveryStream(row.deliveryId), Some(row.threadId), origin, DeliveryShown);
      LogKeepsTables(s, DeliveryStream(row.deliveryId), Some(row.threadId), origin, DeliveryShown);
      assert u == shown.(deliveries := s.deliveries[index := row.(state := DeliveryState.Presented)]);
      assert Plain(s, shown);
      hide PresentDelivery, Log;
      SameRowsKeep(s, u);
      SameRowsAgree(s, u);
      PlainUncounted(s, shown);
      hide Counts, Plain;
      assert Uncounted(s, u);
      UncountedKeepsOnce(s, u);
    }
  }

  lemma DeskClosed(s: Store, step: DeskStep)
    requires ClosedInv(s) && ApplyDesk(s, step).Ok?
    requires Closed(s, s.clock, Desk(step))
    ensures ClosedInv(Committed(s, ApplyDesk(s, step)))
  {
    hide ClosedInv, GoodRead, StoredInputs, FitSubmission, SubmitTask, BindRunSnapshots, Accept, ResolveRoute,
      PresentDelivery;
    assert Tick(s, s.clock) == s;
    match step
    case Submit(sub) => SubmitClosed(s, sub);
    case Bind(thread, runId, task, agent, context, expectedRevision, actor) =>
      BindClosed(s, thread, runId, task, agent, context, expectedRevision, Origin(actor, s.clock, None));
    case AcceptMessage(message, route, project, agent, seen, ids, rows) =>
      AcceptClosed(s, message, route, project, agent, seen, ids, rows);
    case Resolve(stored, platform, actor, decision, target, kind, reason, agent, seen, ids, rows) =>
      ResolveClosed(s, stored, platform, actor, decision, target, kind, reason, agent, seen, ids, rows);
    case Present(index, actor) => PresentClosed(s, index, actor);
  }

  lemma TickClosed(s: Store, now: Time)
    requires ClosedInv(s) && s.clock <= now
    ensures ClosedInv(Tick(s, now))
  {
    hide OpenInv, AgreeInv, DeliveryInv, InboxInv, Sound, Advance;
    TickSound(s, now);
    SoundKeepsOpen(s, Tick(s, now));
    assert Harmless(s, Tick(s, now));
    HarmlessAgrees(s, Tick(s, now));
    PlainKeepsBooks(s, Tick(s, now));
  }

  lemma ApplyClosed(s: Store, step: Step)
    requires ClosedInv(s) && Apply(s, step).Ok? && Closed(s, s.clock, step)
    requires StepAnswered(s, step)
    ensures ClosedInv(Committed(s, Apply(s, step)))
  {
    hide ClosedInv, ApplyWork, ApplyDesk, ApplyGate, ApplyHold, ApplyRaw, Picks, Sweep, GoodRead;
    match step
    case Work(work) => WorkClosed(s, work);
    case Desk(desk) => DeskClosed(s, desk);
    case Gate(gate) => GateClosed(s, gate);
    case Hold(hold) => HoldClosed(s, hold);
    case Raw(_) => assert false;
  }

  lemma AfterClosed(s: Store, now: Time, step: Step)
    requires ClosedInv(s) && Enabled(s, now, step) && Closed(s, now, step)
    ensures ClosedInv(After(s, now, step))
  {
    hide ClosedInv, Apply, Picks, Sweep, SweepRows, GoodRead, FitSubmission, StoredInputs;
    TickClosed(s, now);
    assert Closed(Tick(s, now), now, step);
    if Apply(Tick(s, now), step).Ok? {
      ApplyClosed(Tick(s, now), step);
    }
  }

  /** In every state of every run of the closed protocol all invariants hold together. */
  lemma {:induction false} EveryClosedRun(s: Store, trace: Trace)
    requires ClosedInv(s) && Possible(s, trace) && ClosedTrace(s, trace)
    ensures ClosedInv(Execute(s, trace))
    decreases |trace|
  {
    hide ClosedInv, After, Enabled, Closed;
    if trace != [] {
      var n := |trace| - 1;
      EveryClosedRun(s, trace[..n]);
      AfterClosed(Execute(s, trace[..n]), trace[n].0, trace[n].1);
    }
  }

  lemma EmptyIsClosed(start: Time)
    ensures ClosedInv(EmptyStore(start))
  {
    hide AgreesOn, Backed, Counts;
    EmptyIsSound(start);
    hide OpenInv;
  }
}
