/** Which transactions can create a Thread, note a message, record a delivery or touch the inbox. */
module Books {
  import opened Prelude
  import opened Vocabulary
  import opened Journal
  import opened Reducer
  import opened Store
  import opened Scheduler
  import opened Actions
  import opened Lifecycle
  import opened Integrity
  import opened Agreement

  predicate MarkedChange(change: ThreadEvent) {
    change.ThreadCreated? || change.MessageAppended? || change.DeliveryRecorded?
  }

  predicate Marked(event: Event) {
    match event.body
    case OfThread(change) => event.stream.InboxStream? || (event.stream.ThreadStream? && MarkedChange(change))
    case _ => event.stream.InboxStream?
  }

  /** From s to u nothing marked happened and the tables beside the four areas stood still. */
  ghost predicate Plain(s: Store, u: Store) {
    && s.journal <= u.journal
    && (forall i :: |s.journal| <= i < |u.journal| ==> !Marked(u.journal[i]))
    && u.inbox == s.inbox && u.deliveries == s.deliveries && u.outbox == s.outbox && u.steps == s.steps
  }

  lemma PlainReflexive(s: Store)
    ensures Plain(s, s)
  {
  }

  lemma PlainTransitive(s: Store, t: Store, u: Store)
    requires Plain(s, t) && Plain(t, u)
    ensures Plain(s, u)
  {
  }

  /** Threads and jobs as they were, but for the attention flags. */
  ghost predicate OnlyAttention(p: ThreadProjection, q: ThreadProjection) {
    && p.revision <= q.revision
    && q == p.(attention := q.attention, revision := q.revision, lastEvent := q.lastEvent, updatedAt := q.updatedAt)
  }

  ghost predicate Harmless(s: Store, u: Store) {
    && Plain(s, u) && u.jobs == s.jobs
    && u.threads.Keys == s.threads.Keys
    && forall t :: t in s.threads ==> OnlyAttention(s.threads[t], u.threads[t])
  }

  lemma HarmlessReflexive(s: Store)
    ensures Harmless(s, s)
  {
  }

  lemma HarmlessTransitive(s: Store, t: Store, u: Store)
    requires Harmless(s, t) && Harmless(t, u)
    ensures Harmless(s, u)
  {
    PlainTransitive(s, t, u);
    forall x | x in s.threads
      ensures OnlyAttention(s.threads[x], u.threads[x])
    {
      assert x in t.threads && OnlyAttention(s.threads[x], t.threads[x]) && OnlyAttention(t.threads[x], u.threads[x]);
    }
  }

  /** Work in any area but the Threads is plain; outside the jobs it is harmless. */
  lemma ConfinedPlain(s: Store, u: Store, area: Area)
    requires Confined(s, u, area) && area != Threads
    ensures Plain(s, u) && u.threads == s.threads
    ensures area != Jobs ==> Harmless(s, u)
  {
    assert Quiet(s, u, Threads);
    assert area != Jobs ==> Quiet(s, u, Jobs);
  }

  lemma LogPlain(s: Store, stream: Stream, thread: Option<Id>, origin: Origin, body: Body)
    requires !stream.InboxStream? && !stream.ThreadStream?
    ensures Harmless(s, Log(s, stream, thread, origin, body))
  {
  }

  lemma EmitPlain(s: Store, t: Id, origin: Origin, change: ThreadEvent)
    requires !MarkedChange(change) && Emit(s, t, origin, change).Ok?
    ensures Plain(s, Committed(s, Emit(s, t, origin, change)))
  {
    hide Reduce;
  }

  /** One marked event and nothing else on the side tables. */
  lemma EmitMarks(s: Store, t: Id, origin: Origin, change: ThreadEvent)
    requires Emit(s, t, origin, change).Ok?
    ensures var u := Committed(s, Emit(s, t, origin, change));
      && u.journal == Insert(s.journal, ThreadDraft(t, origin, change))
      && u.inbox == s.inbox && u.deliveries == s.deliveries && u.outbox == s.outbox && u.steps == s.steps
  {
    hide Reduce, Envelope, ThreadDraft;
  }

  // ---------------------------------------------------------------- actions

  lemma SetAttentionHarmless(s: Store, t: Id, target: AttentionState, origin: Origin)
    requires OpenInv(s) && SetAttention(s, t, target, origin).Ok?
    ensures Harmless(s, Committed(s, SetAttention(s, t, target, origin)))
  {
    hide OpenInv, Emit, AppendMessage, ChangeRunState, Plain, RecordCheckpoint, RejectBranch, SelectBranch,
      ThreadTransitions;
    if s.threads[t].attention == target {
      HarmlessReflexive(s);
    } else {
      EmitPlain(s, t, origin, AttentionChanged(target));
      EmitMoves(s, t, origin, AttentionChanged(target));
      assert OnlyAttention(s.threads[t], Emit(s, t, origin, AttentionChanged(target)).value.threads[t]);
    }
  }

  lemma ClearAttentionHarmless(s: Store, t: Id, now: Time)
    requires OpenInv(s) && ClearAttention(s, t, now).Ok?
    ensures Harmless(s, Committed(s, ClearAttention(s, t, now)))
  {
    hide OpenInv, Harmless, SetAttention;
    if NothingPending(s, t) {
      SetAttentionHarmless(s, t, AttentionState.Calm, Origin("approval-gate", now, None));
    } else {
      HarmlessReflexive(s);
    }
  }

  lemma {:induction false} ClearAllHarmless(s: Store, now: Time, threads: seq<Id>)
    requires OpenInv(s) && ClearAll(s, now, threads).Ok?
    ensures Harmless(s, Committed(s, ClearAll(s, now, threads)))
    decreases |threads|
  {
    hide OpenInv, Harmless, ClearAttention, Advance;
    if threads == [] {
      HarmlessReflexive(s);
    } else {
      var n := |threads| - 1;
      var rest := ClearAll(s, now, threads[..n]).value;
      ClearAllHarmless(s, now, threads[..n]);
      ClearAllSound(s, now, threads[..n]);
      assert OpenInv(rest);
      ClearAttentionHarmless(rest, threads[n], now);
      HarmlessTransitive(s, rest, ClearAttention(rest, threads[n], now).value);
    }
  }

  lemma SoundKeeps(s: Store, t: Store)
    requires Sound(s, t) && OpenInv(s)
    ensures OpenInv(t)
  {
    hide Advance, OpenInv;
  }

  lemma CreateIntentHarmless(
    s: Store, threadId: Id, runId: Id, capability: string, request: Artifact, key: string, requiresApproval: bool,
    intentId: Id, origin: Origin)
    requires CreateActionIntent(s, threadId, runId, capability, request, key, requiresApproval, intentId, origin).Ok?
    ensures Harmless(
      s, Committed(s, CreateActionIntent(
        s, threadId, runId, capability, request, key, requiresApproval, intentId, origin)))
  {
    hide Terminal;
    if key in s.intentByKey && s.intentByKey[key] in s.intents {
      HarmlessReflexive(s);
    } else {
      hide Insert, NonBlank;
      var intent := ActionIntent(
        intentId, key, threadId, runId, capability, request, requiresApproval, ActionStatus.Pending, None, 0, None,
        origin.at, origin.at);
      var stored := WriteIntent(s, intent, origin, IntentCreated(requiresApproval));
      assert Harmless(s, stored.(intentByKey := s.intentByKey[key := intentId]));
    }
  }

  lemma CreateApprovalHarmless(
    s: Store, intentId: Id, riskLevel: string, requestedBy: string, reason: string, ttl: int,
    policy: Option<Artifact>, approvalId: Id, now: Time)
    requires OpenInv(s)
    requires CreateApproval(s, intentId, riskLevel, requestedBy, reason, ttl, policy, approvalId, now).Ok?
    ensures Harmless(
      s, Committed(s, CreateApproval(s, intentId, riskLevel, requestedBy, reason, ttl, policy, approvalId, now)))
  {
    hide OpenInv, SetAttention;
    if intentId in s.approvalOf && s.approvalOf[intentId] in s.approvals {
      HarmlessReflexive(s);
    } else {
      var approval := ApprovalRequest(
        approvalId, intentId, ApprovalState.Pending, riskLevel, requestedBy, reason, policy, now, now + ttl, now,
        None, None);
      var waiting := OpenApproval(s, approval, Origin(requestedBy, now, None));
      var thread, gate := s.intents[intentId].threadId, Origin("approval-gate", now, None);
      OpenApprovalSound(s, approval, Origin(requestedBy, now, None));
      assert OpenInv(waiting);
      assert Harmless(s, OpenApproval(s, approval, Origin(requestedBy, now, None)));
      SetAttentionHarmless(waiting, thread, AttentionState.NeedsApproval, gate);
      HarmlessTransitive(s, waiting, SetAttention(waiting, thread, AttentionState.NeedsApproval, gate).value);
    }
  }

  lemma DecideHarmless(
    s: Store, approvalId: Id, decision: ApprovalState, actor: string, evidence: Option<Artifact>, now: Time)
    requires OpenInv(s) && DecideApproval(s, approvalId, decision, actor, evidence, now).Ok?
    ensures Harmless(s, Committed(s, DecideApproval(s, approvalId, decision, actor, evidence, now)))
  {
    hide OpenInv, Sound, ClearAttention;
    var row := s.approvals[approvalId];
    if row.status == decision {
      HarmlessReflexive(s);
    } else {
      var decided := RecordDecision(s, approvalId, decision, actor, evidence, now);
      var thread := s.intents[row.intentId].threadId;
      RecordDecisionSound(s, approvalId, decision, actor, evidence, now);
      SoundKeeps(s, decided);
      assert Harmless(s, decided);
      ClearAttentionHarmless(decided, thread, now);
      HarmlessTransitive(s, decided, ClearAttention(decided, thread, now).value);
    }
  }

  lemma {:induction false} ExpireRowsHarmless(s: Store, now: Time, rows: seq<Id>)
    ensures Harmless(s, ExpireRows(s, now, rows))
    decreases |rows|
  {
    hide DropIntent;
    if rows == [] {
      HarmlessReflexive(s);
    } else {
      var rest := ExpireRows(s, now, rows[..|rows| - 1]);
      var a := rows[|rows| - 1];
      ExpireRowsHarmless(s, now, rows[..|rows| - 1]);
      if Due(rest, a, now) {
        assert Harmless(rest, ExpireApproval(rest, a, now));
        HarmlessTransitive(s, rest, ExpireApproval(rest, a, now));
      }
    }
  }

  lemma ClaimActionHarmless(
    s: Store, intentId: Id, worker: string, leaseId: string, seconds: int, reconciling: bool, now: Time)
    requires ClaimAction(s, intentId, worker, leaseId, seconds, reconciling, now).Ok?
    ensures Harmless(s, Committed(s, ClaimAction(s, intentId, worker, leaseId, seconds, reconciling, now)))
  {
    hide Confined, Harmless, MarkReconcile, TakeAction, Plain;
    var marked := NoticeLapse(s, intentId, now);
    if ActionLapsed(s.intents[intentId], now) {
      MarkConfined(s, intentId, now);
    } else {
      ConfinedReflexive(s, Area.Actions);
    }
    var t := ClaimAction(s, intentId, worker, leaseId, seconds, reconciling, now).value;
    TakeActionConfined(marked, intentId, Lease(worker, leaseId, now + seconds), reconciling, now);
    ConfinedTransitive(s, marked, t, Area.Actions);
    ConfinedPlain(s, t, Area.Actions);
  }

  lemma {:induction false} RecoverHarmless(s: Store, now: Time, rows: seq<Id>)
    ensures Harmless(s, RecoverIncomplete(s, now, rows))
    decreases |rows|
  {
    hide Confined, Harmless, MarkReconcile, Plain;
    if rows == [] {
      HarmlessReflexive(s);
    } else {
      var rest := RecoverIncomplete(s, now, rows[..|rows| - 1]);
      var i := rows[|rows| - 1];
      RecoverHarmless(s, now, rows[..|rows| - 1]);
      if i in rest.intents && ActionLapsed(rest.intents[i], now) {
        MarkConfined(rest, i, now);
        ConfinedPlain(rest, MarkReconcile(rest, i, now), Area.Actions);
        HarmlessTransitive(s, rest, MarkReconcile(rest, i, now));
      }
    }
  }

  // ---------------------------------------------------------------- life cycle

  lemma BindPlain(
    s: Store, t: Id, r: Id, task: Artifact, agent: Artifact, context: Artifact, expectedRevision: nat, origin: Origin)
    requires BindRunSnapshots(s, t, r, task, agent, context, expectedRevision, origin).Ok?
    ensures Plain(s, Committed(s, BindRunSnapshots(s, t, r, task, agent, context, expectedRevision, origin)))
  {
    hide Plain, Emit;
    EmitPlain(s, t, origin, SnapshotsBound(r, task, agent, context));
  }

  lemma StartPlain(s: Store, claim: WorkerClaim, now: Time)
    requires StartClaimedRun(s, claim, now).Ok?
    ensures Plain(s, Committed(s, StartClaimedRun(s, claim, now)))
  {
    hide Plain, Emit, Live;
    var p := s.threads[claim.threadId];
    var run, origin := p.runs[claim.runId], Origin(claim.worker, now, None);
    PlainReflexive(s);
    var awake := s;
    if !p.actual.Running? {
      awake := Emit(s, claim.threadId, origin, ThreadStateChanged(p.actual, ThreadState.Running, [])).value;
      EmitPlain(s, claim.threadId, origin, ThreadStateChanged(p.actual, ThreadState.Running, []));
    }
    if !run.state.Running? {
      var change := RunStateChanged(claim.runId, run.state, RunState.Running, [], None, None);
      EmitPlain(awake, claim.threadId, origin, change);
      PlainTransitive(s, awake, Emit(awake, claim.threadId, origin, change).value);
    }
  }

  lemma SettleJobPlain(s: Store, runId: Id, how: Settlement, errorText: Option<string>, origin: Origin)
    requires runId in s.jobs
    ensures Plain(s, SettleJob(s, runId, how, errorText, origin))
  {
    hide Confined, Plain, SettleJob, Harmless;
    SettleJobConfined(s, runId, how, errorText, origin);
    ConfinedPlain(s, SettleJob(s, runId, how, errorText, origin), Jobs);
  }

  lemma SettleThreadPlain(
    s: Store, claim: WorkerClaim, how: Settlement, output: Option<Artifact>, error: Option<string>, origin: Origin)
    requires claim.threadId in s.threads && claim.runId in ThreadAt(s, claim.threadId).runs
    requires SettleThread(s, claim, how, output, error, origin).Ok?
    ensures Plain(s, Committed(s, SettleThread(s, claim, how, output, error, origin)))
    ensures Committed(s, SettleThread(s, claim, how, output, error, origin)).jobs == s.jobs
  {
    SettleThreadSound(s, claim, how, output, error, origin);
    hide Plain, Emit, Sound, Confined;
    var t, p := claim.threadId, s.threads[claim.threadId];
    var first := RunStateChanged(claim.runId, p.runs[claim.runId].state, RunTarget(how), [], Some(output), error);
    var second := ThreadStateChanged(p.actual, ThreadTarget(how), []);
    var a := Emit(s, t, origin, first).value;
    var b := Emit(a, t, origin, second).value;
    EmitPlain(s, t, origin, first);
    EmitPlain(a, t, origin, second);
    PlainTransitive(s, a, b);
    if how.GiveUp? && !p.attention.Failed? {
      EmitPlain(b, t, origin, AttentionChanged(AttentionState.Failed));
      PlainTransitive(s, b, Emit(b, t, origin, AttentionChanged(AttentionState.Failed)).value);
    }
  }

  lemma FinishExecutionPlain(
    s: Store, claim: WorkerClaim, executorKey: string, version: string, outcome: Outcome, now: Time)
    requires FinishClaimedExecution(s, claim, executorKey, version, outcome, now).Ok?
    ensures Plain(s, Committed(s, FinishClaimedExecution(s, claim, executorKey, version, outcome, now)))
  {
    hide Plain, SettleThread, SettleJob, NonBlank, LastErrorOf, ErrorOf;
    var how := SettlementOf(outcome, s.jobs[claim.runId], now);
    var origin := Origin(claim.worker, now, None);
    var ended := SettleThread(s, claim, how, OutputOf(outcome), ErrorOf(outcome), origin).value;
    SettleThreadPlain(s, claim, how, OutputOf(outcome), ErrorOf(outcome), origin);
    assert Plain(ended, SettleJob(ended, claim.runId, how, LastErrorOf(outcome), origin)) by {
      SettleJobConfined(ended, claim.runId, how, LastErrorOf(outcome), origin);
      ConfinedPlain(ended, SettleJob(ended, claim.runId, how, LastErrorOf(outcome), origin), Jobs);
    }
    PlainTransitive(s, ended, SettleJob(ended, claim.runId, how, LastErrorOf(outcome), origin));
  }

  /** Plain but for the step rows, with Threads and jobs as they were. */
  ghost predicate StepWork(s: Store, u: Store) {
    Plain(s, u.(steps := s.steps)) && u.jobs == s.jobs && u.threads == s.threads
  }

  lemma StepLogWork(s: Store, stepId: Id, thread: Option<Id>, origin: Origin, body: Body)
    ensures StepWork(s, Log(s, StepStream(stepId), thread, origin, body))
  {
  }

  lemma BeginStepWork(
    s: Store, claim: WorkerClaim, stepId: Id, ordinal: nat, kind: StepKind, providerKey: string,
    providerVersion: string, inputs: seq<Artifact>, now: Time)
    requires BeginClaimedStep(s, claim, stepId, ordinal, kind, providerKey, providerVersion, inputs, now).Ok?
    ensures StepWork(
      s, Committed(s, BeginClaimedStep(s, claim, stepId, ordinal, kind, providerKey, providerVersion, inputs, now)))
  {
    hide Log, Live, SlotTaken, NonBlank, Marked;
    var t := BeginClaimedStep(s, claim, stepId, ordinal, kind, providerKey, providerVersion, inputs, now).value;
    if stepId !in s.steps {
      var origin := Origin(claim.worker, now, None);
      var a := Log(s, StepStream(stepId), Some(claim.threadId), origin, StepCreated);
      StepLogWork(s, stepId, Some(claim.threadId), origin, StepCreated);
      StepLogWork(a, stepId, Some(claim.threadId), origin, StepStarted);
    }
  }

  lemma FinishStepWork(
    s: Store, claim: WorkerClaim, stepId: Id, outputs: seq<Artifact>, verifierResult: Option<Artifact>,
    errorCode: Option<string>, now: Time)
    requires FinishClaimedStep(s, claim, stepId, outputs, verifierResult, errorCode, now).Ok?
    ensures StepWork(s, Committed(s, FinishClaimedStep(s, claim, stepId, outputs, verifierResult, errorCode, now)))
  {
    hide Live;
    var origin := Origin(claim.worker, now, None);
    var a := s;
    if outputs != [] {
      a := Log(s, StepStream(stepId), Some(claim.threadId), origin, StepOutputs);
      assert StepWork(s, Log(s, StepStream(stepId), Some(claim.threadId), origin, StepOutputs));
    }
    StepLogWork(a, stepId, Some(claim.threadId), origin, StepEnded(errorCode.None?));
  }

  lemma CancelRunPlain(s: Store, t: Id, r: Id, rows: seq<Id>, reason: string, origin: Origin)
    requires CancelRun(s, t, r, rows, reason, origin).Ok?
    ensures Plain(s, Committed(s, CancelRun(s, t, r, rows, reason, origin)))
  {
    hide Plain, Confined, Sound, CancelPendingActions, Emit, CancelJob, Harmless, Terminal;
    if t !in s.threads || r !in s.threads[t].runs || Terminal(s.threads[t].runs[r].state) {
      PlainReflexive(s);
    } else {
      var dropped := CancelPendingActions(s, r, rows, reason, origin);
      var change := RunStateChanged(r, s.threads[t].runs[r].state, RunState.Cancelled, [], None, None);
      var ended := Emit(dropped, t, origin, change).value;
      CancelPendingConfined(s, r, rows, reason, origin);
      ConfinedPlain(s, dropped, Area.Actions);
      EmitPlain(dropped, t, origin, change);
      CancelJobSound(ended, r, origin);
      ConfinedPlain(ended, CancelJob(ended, r, origin), Jobs);
      PlainTransitive(s, dropped, ended);
      PlainTransitive(s, ended, CancelJob(ended, r, origin));
    }
  }

  lemma {:induction false} CancelRunsPlain(s: Store, t: Id, runs: seq<Id>, rows: seq<Id>, reason: string,
      origin: Origin)
    requires CancelRuns(s, t, runs, rows, reason, origin).Ok?
    ensures Plain(s, Committed(s, CancelRuns(s, t, runs, rows, reason, origin)))
    decreases |runs|
  {
    hide Plain, CancelRun;
    if runs == [] {
      PlainReflexive(s);
    } else {
      var n := |runs| - 1;
      var earlier := CancelRuns(s, t, runs[..n], rows, reason, origin).value;
      CancelRunsPlain(s, t, runs[..n], rows, reason, origin);
      CancelRunPlain(earlier, t, runs[n], rows, reason, origin);
      PlainTransitive(s, earlier, CancelRun(earlier, t, runs[n], rows, reason, origin).value);
    }
  }

  lemma CancelForUpdatePlain(s: Store, t: Id, runs: seq<Id>, rows: seq<Id>, reason: string, origin: Origin)
    requires CancelForUpdate(s, t, runs, rows, reason, origin).Ok?
    ensures Plain(s, Committed(s, CancelForUpdate(s, t, runs, rows, reason, origin)))
  {
    hide Plain, CancelRuns, Emit, NothingPending;
    var a := CancelRuns(s, t, runs, rows, reason, origin).value;
    CancelRunsPlain(s, t, runs, rows, reason, origin);
    PlainReflexive(a);
    if t in a.threads && a.threads[t].attention.NeedsApproval? && NothingPending(a, t) {
      EmitPlain(a, t, origin, AttentionChanged(AttentionState.Calm));
    }
    PlainTransitive(s, a, SettleAttention(a, t, origin).value);
  }

  lemma CancelThreadPlain(s: Store, t: Id, runs: seq<Id>, rows: seq<Id>, origin: Origin)
    requires CancelThread(s, t, runs, rows, origin).Ok?
    ensures Plain(s, Committed(s, CancelThread(s, t, runs, rows, origin)))
  {
    hide Plain, Emit, CancelForUpdate;
    var wanted := s;
    PlainReflexive(s);
    if !s.threads[t].desired.Cancel? {
      wanted := Emit(s, t, origin, DesiredStateChanged(DesiredState.Cancel)).value;
      EmitPlain(s, t, origin, DesiredStateChanged(DesiredState.Cancel));
    }
    var cleared := CancelForUpdate(wanted, t, runs, rows, USER_CANCELLED, origin).value;
    CancelForUpdatePlain(wanted, t, runs, rows, USER_CANCELLED, origin);
    PlainTransitive(s, wanted, cleared);
    if t in cleared.threads && !cleared.threads[t].actual.Cancelled? {
      var change := ThreadStateChanged(cleared.threads[t].actual, ThreadState.Cancelled, []);
      EmitPlain(cleared, t, origin, change);
      PlainTransitive(s, cleared, Emit(cleared, t, origin, change).value);
    }
  }

  lemma InsertJobPlain(s: Store, job: SchedulerJob, origin: Origin)
    requires InsertJob(s, job, origin).Ok?
    ensures Plain(s, Committed(s, InsertJob(s, job, origin)))
  {
    hide Confined, Plain, WriteJob, Harmless;
    WriteJobConfined(s, job.runId, job, origin,
                     RunEnqueued(job.priority, job.availableAt, job.maxAttempts, job.executorKey));
    ConfinedPlain(s, InsertJob(s, job, origin).value, Jobs);
  }

  lemma StartNewRunPlain(s: Store, sub: ThreadUpdateSubmission, origin: Origin)
    requires StartNewRun(s, sub, origin).Ok?
    ensures Plain(s, Committed(s, StartNewRun(s, sub, origin)))
  {
    hide Plain, Emit, Confined, WriteJob;
    var t, runId, scheduler := sub.threadId, sub.newRun.value, origin.(actor := "scheduler");
    var branch := TargetBranch(sub, s.threads[t].currentBranch);
    var branched := ForkForUpdate(s, sub, branch, origin).value;
    var creation := RunCreated(runId, branch, sub.executorKey, sub.supersedes);
    var binding := SnapshotsBound(runId, sub.task.value, sub.agent.value, sub.context.value);
    var queued := CreateQueuedRun(branched, t, creation, binding, origin).value;
    var ready := QueueThread(queued, t, scheduler).value;
    var job := NewJob(runId, t, sub.priority, sub.at, sub.maxAttempts, sub.executorKey, sub.at);
    assert Plain(s, Committed(s, ForkForUpdate(s, sub, branch, origin))) by {
      if sub.forkedFrom.None? {
        PlainReflexive(s);
      } else {
        var change := BranchForked(branch, sub.forkedFrom, sub.forkedFromEvent.value, sub.baseRevision.value,
            sub.reason.value);
        var forked := Emit(s, sub.threadId, origin, change).value;
        EmitPlain(s, sub.threadId, origin, change);
        EmitPlain(forked, sub.threadId, origin, BranchSelected(branch));
        PlainTransitive(s, forked, Emit(forked, sub.threadId, origin, BranchSelected(branch)).value);
      }
    }
    assert Plain(branched, CreateQueuedRun(branched, t, creation, binding, origin).value) by {
      var compiler, scheduler := origin.(actor := "context-compiler"), origin.(actor := "scheduler");
      var queueing := RunStateChanged(creation.runId, RunState.Created, RunState.Queued, [], None, None);
      var a := Emit(branched, t, origin, creation).value;
      var b := Emit(a, t, compiler, binding).value;
      EmitPlain(branched, t, origin, creation);
      EmitPlain(a, t, compiler, binding);
      EmitPlain(b, t, scheduler, queueing);
      PlainTransitive(branched, a, b);
      PlainTransitive(branched, b, Emit(b, t, scheduler, queueing).value);
    }
    PlainReflexive(queued);
    if t in queued.threads && Requeued(queued.threads[t].actual) {
      EmitPlain(queued, t, scheduler, ThreadStateChanged(queued.threads[t].actual, ThreadState.Queued, []));
    }
    assert Plain(ready, Committed(ready, InsertJob(ready, job, scheduler))) by {
      WriteJobConfined(ready, job.runId, job, scheduler,
                       RunEnqueued(job.priority, job.availableAt, job.maxAttempts, job.executorKey));
      ConfinedPlain(ready, InsertJob(ready, job, scheduler).value, Jobs);
    }
    PlainTransitive(s, branched, queued);
    PlainTransitive(s, queued, ready);
    PlainTransitive(s, ready, InsertJob(ready, job, scheduler).value);
  }

  // =========================================================================== once per message
  // Each message key has one record, leaves PROPOSED at most once, and owns at most one durable effect.

  /** What is counted for a message key. */
  datatype Tracked = AnEffect | AProposal | ADeparture

  predicate Counts(event: Event, key: Id, what: Tracked) {
    match what
    case AnEffect =>
      && event.stream.ThreadStream? && event.body.OfThread?
      && ((event.body.thread.ThreadCreated? && event.stream.thread == ThreadOf(key))
          || (event.body.thread.MessageAppended? && event.body.thread.updateId == key))
    case AProposal => event.stream == InboxStream(key) && event.body.OfInbox? && event.body.inbox.RouteProposed?
    case ADeparture => event.stream == InboxStream(key) && event.body.OfInbox? && !event.body.inbox.RouteProposed?
  }

  function Tally(journal: seq<Event>, key: Id, what: Tracked): nat {
    if journal == [] then 0
    else Tally(journal[..|journal| - 1], key, what) + if Counts(journal[|journal| - 1], key, what) then 1 else 0
  }

  /** A route that calls for a Thread or a Thread update. */
  predicate Effective(record: InboxRecord) {
    && (record.routeState.Confirmed? || record.routeState.Corrected?)
    && (record.routeType.NewTask? || record.routeType.ThreadUpdate?)
  }

  function One(condition: bool): nat {
    if condition then 1 else 0
  }

  ghost predicate OnceFor(s: Store, key: Id) {
    && Tally(s.journal, key, AnEffect) == One(key in s.inbox && Effective(s.inbox[key]))
    && Tally(s.journal, key, AProposal) == One(key in s.inbox)
    && Tally(s.journal, key, ADeparture) == One(key in s.inbox && !s.inbox[key].routeState.Proposed?)
    && (key in s.inbox ==> s.inbox[key].messageKey == key)
  }

  ghost predicate InboxInv(s: Store) {
    forall key :: OnceFor(s, key)
  }

  lemma TallyInsert(journal: seq<Event>, draft: Draft, key: Id, what: Tracked)
    ensures Tally(Insert(journal, draft), key, what)
         == Tally(journal, key, what) + One(Counts(Envelope(journal, draft), key, what))
  {
    var next := Insert(journal, draft);
    assert next[..|next| - 1] == journal;
  }

  lemma {:induction false} TallyQuiet(before: seq<Event>, more: seq<Event>, key: Id, what: Tracked)
    requires forall e :: e in more ==> !Counts(e, key, what)
    ensures Tally(before + more, key, what) == Tally(before, key, what)
    decreases |more|
  {
    if more == [] {
      assert before + more == before;
    } else {
      assert (before + more)[..|before + more| - 1] == before + more[..|more| - 1];
      TallyQuiet(before, more[..|more| - 1], key, what);
    }
  }

  lemma PlainTally(s: Store, u: Store, key: Id, what: Tracked)
    requires Plain(s, u)
    ensures Tally(u.journal, key, what) == Tally(s.journal, key, what)
  {
    var more := u.journal[|s.journal|..];
    assert u.journal == s.journal + more;
    assert forall e :: e in more ==> !Marked(e);
    TallyQuiet(s.journal, more, key, what);
  }

  // ---------------------------------------------------------------- submissions

  function DraftTally(drafts: seq<Draft>, key: Id, what: Tracked): nat {
    if drafts == [] then 0
    else
      DraftTally(drafts[..|drafts| - 1], key, what)
      + One(Counts(Envelope([], drafts[|drafts| - 1]), key, what))
  }

  lemma {:induction false} EmitDraftsTally(s: Store, t: Id, drafts: seq<Draft>, key: Id, what: Tracked)
    requires EmitDrafts(s, t, drafts).Ok?
    ensures var u := Committed(s, EmitDrafts(s, t, drafts));
      && Tally(u.journal, key, what) == Tally(s.journal, key, what) + DraftTally(drafts, key, what)
      && u.inbox == s.inbox && u.deliveries == s.deliveries && u.outbox == s.outbox && u.steps == s.steps
    decreases |drafts|
  {
    hide Reduce;
    if drafts != [] {
      var n := |drafts| - 1;
      EmitDraftsTally(s, t, drafts[..n], key, what);
      var earlier := EmitDrafts(s, t, drafts[..n]).value;
      TallyInsert(earlier.journal, drafts[n], key, what);
    }
  }

  lemma {:induction false} UnmarkedDrafts(drafts: seq<Draft>, more: seq<Draft>, key: Id, what: Tracked)
    requires forall d :: d in more ==> !Marked(Envelope([], d))
    ensures DraftTally(drafts + more, key, what) == DraftTally(drafts, key, what)
    decreases |more|
  {
    if more == [] {
      assert drafts + more == drafts;
    } else {
      var n := |more| - 1;
      assert (drafts + more)[..|drafts + more| - 1] == drafts + more[..n];
      UnmarkedDrafts(drafts, more[..n], key, what);
      assert !Marked(Envelope([], more[n]));
    }
  }

  /** A submission is counted by its first event alone. */
  lemma SubmissionTally(sub: TaskSubmission, now: Time, key: Id, what: Tracked)
    ensures DraftTally(SubmissionDrafts(sub, now), key, what) == One(what.AnEffect? && sub.threadId == ThreadOf(key))
  {
    var drafts := SubmissionDrafts(sub, now);
    var first := drafts[0];
    assert drafts == [first] + drafts[1..];
    UnmarkedDrafts([first], drafts[1..], key, what);
    assert [first][..0] == [];
    assert DraftTally([first], key, what) == One(Counts(Envelope([], first), key, what));
  }

  lemma SubmitTally(s: Store, sub: TaskSubmission, now: Time, key: Id, what: Tracked)
    requires sub.threadId !in s.threads && SubmitTask(s, sub, now).Ok?
    ensures var u := Committed(s, SubmitTask(s, sub, now));
      && Tally(u.journal, key, what)
         == Tally(s.journal, key, what) + One(what.AnEffect? && sub.threadId == ThreadOf(key))
      && u.inbox == s.inbox && u.steps == s.steps
  {
    hide EmitDrafts, InsertJob, NonBlank, SubmissionDrafts, Tally, DraftTally;
    var drafts := SubmissionDrafts(sub, now);
    var created := EmitDrafts(s, sub.threadId, drafts).value;
    var job := NewJob(sub.runId, sub.threadId, sub.priority, now, sub.maxAttempts, sub.executorKey, now);
    var u := InsertJob(created, job, Origin("scheduler", now, sub.correlation)).value;
    EmitDraftsTally(s, sub.threadId, drafts, key, what);
    SubmissionTally(sub, now, key, what);
    InsertJobPlain(created, job, Origin("scheduler", now, sub.correlation));
    PlainTally(created, u, key, what);
  }

  lemma SubmitAgain(s: Store, sub: TaskSubmission, now: Time)
    requires sub.threadId in s.threads && SubmitTask(s, sub, now).Ok?
    ensures Committed(s, SubmitTask(s, sub, now)) == s
  {
    hide EmitDrafts, InsertJob, SameSubmission, NonBlank, SubmissionDrafts;
  }

  // ---------------------------------------------------------------- updates

  lemma UpdateTally(s: Store, sub: ThreadUpdateSubmission, ids: seq<Id>, rows: seq<Id>, key: Id, what: Tracked)
    requires ApplyThreadUpdate(s, sub, ids, rows).Ok?
    ensures var u := Committed(s, ApplyThreadUpdate(s, sub, ids, rows));
      && Tally(u.journal, key, what) == Tally(s.journal, key, what) + One(what.AnEffect? && sub.messageKey == key)
      && u.inbox == s.inbox && u.deliveries == s.deliveries && u.outbox == s.outbox && u.steps == s.steps
  {
    hide CancelThread, CancelForUpdate, StartNewRun, SupersededBy, NonBlank;
    var t, origin := sub.threadId, UpdateOrigin(sub);
    var change := MessageAppended(
      sub.messageKey, sub.message, sub.text, sub.kind, s.threads[t].currentBranch, sub.task, sub.context, sub.newRun);
    var noted := Emit(s, t, origin, change).value;
    TallyInsert(s.journal, ThreadDraft(t, origin, change), key, what);
    var u := ApplyThreadUpdate(s, sub, ids, rows).value;
    if sub.kind.Cancel? {
      CancelThreadPlain(noted, t, ids, rows, origin);
    } else {
      var reason := SupersededBy(sub.kind);
      var cleared := CancelForUpdate(noted, t, sub.supersedesRuns, rows, reason, origin).value;
      CancelForUpdatePlain(noted, t, sub.supersedesRuns, rows, reason, origin);
      StartNewRunPlain(cleared, sub, origin);
      PlainTransitive(noted, cleared, u);
    }
    PlainTally(noted, u, key, what);
  }

  // ---------------------------------------------------------------- a Thread exists only once created

  lemma {:induction false} ThreadNeedsCreation(journal: seq<Event>, key: Id, p: ThreadProjection)
    requires Replay(journal, ThreadOf(key)) == Ok(Some(p))
    ensures Tally(journal, key, AnEffect) >= 1
    decreases |journal|
  {
    hide ReduceExisting;
    var n := |journal| - 1;
    var earlier := Replay(journal[..n], ThreadOf(key)).value;
    if earlier.Some? {
      ThreadNeedsCreation(journal[..n], key, earlier.value);
    } else {
      assert Counts(journal[n], key, AnEffect);
    }
  }

  /** No Thread stands under a key whose route has taken no effect. */
  lemma NoThreadYet(s: Store, key: Id)
    requires Faithful(s) && OnceFor(s, key)
    requires key in s.inbox ==> !Effective(Row(s.inbox, key))
    ensures ThreadOf(key) !in s.threads
  {
    hide Replay, Sequenced, Tally;
    assert Replay(s.journal, ThreadOf(key)) == Ok(Lookup(s.threads, ThreadOf(key)));
    if ThreadOf(key) in s.threads {
      ThreadNeedsCreation(s.journal, key, s.threads[ThreadOf(key)]);
    }
  }

  // ---------------------------------------------------------------- acceptance

  lemma InboxLogTally(s: Store, record: InboxRecord, origin: Origin, event: InboxEvent, key: Id, what: Tracked)
    ensures Tally(InboxLog(s, record, origin, event).journal, key, what)
         == Tally(s.journal, key, what)
            + One(record.messageKey == key && (if event.RouteProposed? then what.AProposal? else what.ADeparture?))
  {
  }

  /** A record stored with its events, its effect still to come. */
  ghost predicate Pending(s: Store, u: Store, record: InboxRecord) {
    && u.inbox == s.inbox[record.messageKey := record]
    && u.threads == s.threads
    && forall key, what: Tracked :: Tally(u.journal, key, what)
         == if key != record.messageKey then Tally(s.journal, key, what)
            else match what
              case AnEffect => Tally(s.journal, key, what)
              case AProposal => 1
              case ADeparture => One(!record.routeState.Proposed?)
  }

  /** What one effect of a record adds to the books. */
  ghost predicate EffectDone(u: Store, t: Store, record: InboxRecord, count: int) {
    && t.inbox == u.inbox
    && forall key, what: Tracked :: Tally(t.journal, key, what)
         == Tally(u.journal, key, what) + if what.AnEffect? && key == record.messageKey then count else 0
  }

  lemma EffectKeepsOnce(s: Store, u: Store, t: Store, record: InboxRecord)
    requires InboxInv(s) && Pending(s, u, record)
    requires record.messageKey in s.inbox ==> !Effective(Row(s.inbox, record.messageKey))
    requires EffectDone(u, t, record, One(Effective(record)))
    ensures InboxInv(t)
  {
    forall key
      ensures OnceFor(t, key)
    {
      assert OnceFor(s, key);
      assert Tally(t.journal, key, AnEffect)
          == Tally(u.journal, key, AnEffect) + if key == record.messageKey then One(Effective(record)) else 0;
      assert Tally(t.journal, key, AProposal) == Tally(u.journal, key, AProposal);
      assert Tally(t.journal, key, ADeparture) == Tally(u.journal, key, ADeparture);
    }
  }

  /** The events of a first acceptance count one proposal, and one departure when it is confirmed at once. */
  lemma AcceptanceTally(s: Store, record: InboxRecord, key: Id, what: Tracked)
    ensures Tally(LogAcceptance(s, record).journal, key, what)
         == Tally(s.journal, key, what)
            + One(record.messageKey == key && (what.AProposal? || (what.ADeparture? && record.routeState.Confirmed?)))
  {
    var chat := ConversationStream(record.platform, record.chatId);
    var own, at := record.messageKey, record.createdAt;
    var sender, policy := Origin(record.actorId, at, Some(own)), Origin("inbox-policy", at, Some(own));
    var proposed, confirmed :=
      RouteProposed(record.routeType, record.routeState), RouteConfirmed(record.routeType);
    var a := Log(s, chat, None, sender, MessageReceived(own));
    var b := InboxLog(a, record, Origin("inbox-router", at, Some(own)), proposed);
    InboxLogTally(a, record, Origin("inbox-router", at, Some(own)), proposed, key, what);
    var c := if record.routeState.Confirmed? then InboxLog(b, record, policy, confirmed) else b;
    InboxLogTally(b, record, policy, confirmed, key, what);
    TallyInsert(c.journal, DraftOf(chat, None, sender, ConversationAppended(own)), key, what);
  }

  lemma AcceptedPending(s: Store, record: InboxRecord)
    requires InboxInv(s) && record.messageKey !in s.inbox
    requires record.routeState.Proposed? || record.routeState.Confirmed?
    ensures Pending(s, LogAcceptance(s, record).(inbox := s.inbox[record.messageKey := record]), record)
  {
    hide LogAcceptance, Tally;
    LogAcceptanceKeeps(s, record);
    assert OnceFor(s, record.messageKey);
    forall key, what: Tracked
      ensures Tally(LogAcceptance(s, record).journal, key, what)
           == if key != record.messageKey then Tally(s.journal, key, what)
              else match what
                case AnEffect => Tally(s.journal, key, what)
                case AProposal => 1
                case ADeparture => One(!record.routeState.Proposed?)
    {
      AcceptanceTally(s, record, key, what);
    }
  }

  lemma TaskEffect(s: Store, u: Store, record: InboxRecord, task: TaskSubmission, ids: seq<Id>, rows: seq<Id>,
      now: Time)
    requires Faithful(s) && InboxInv(s) && Pending(s, u, record) && task.threadId == ThreadOf(record.messageKey)
    requires record.messageKey in s.inbox ==> !Effective(Row(s.inbox, record.messageKey))
    requires ApplyEffect(u, Some(task), None, ids, rows, now).Ok?
    ensures EffectDone(u, Committed(u, ApplyEffect(u, Some(task), None, ids, rows, now)), record, 1)
  {
    hide SubmitTask, Counts, Faithful, ApplyThreadUpdate, OnceFor;
    assert OnceFor(s, record.messageKey);
    NoThreadYet(s, record.messageKey);
    var t := SubmitTask(u, task, now).value;
    forall key, what: Tracked
      ensures Tally(t.journal, key, what)
           == Tally(u.journal, key, what) + if what.AnEffect? && key == record.messageKey then 1 else 0
    {
      SubmitTally(u, task, now, key, what);
    }
    SubmitTally(u, task, now, record.messageKey, AnEffect);
  }

  lemma UpdateEffect(u: Store, record: InboxRecord, update: ThreadUpdateSubmission, ids: seq<Id>, rows: seq<Id>,
      now: Time)
    requires update.messageKey == record.messageKey
    requires ApplyEffect(u, None, Some(update), ids, rows, now).Ok?
    ensures EffectDone(u, Committed(u, ApplyEffect(u, None, Some(update), ids, rows, now)), record, 1)
  {
    hide ApplyThreadUpdate, Counts, SubmitTask;
    var t := ApplyThreadUpdate(u, update, ids, rows).value;
    forall key, what: Tracked
      ensures Tally(t.journal, key, what)
           == Tally(u.journal, key, what) + if what.AnEffect? && key == record.messageKey then 1 else 0
    {
      UpdateTally(u, update, ids, rows, key, what);
    }
    UpdateTally(u, update, ids, rows, record.messageKey, AnEffect);
  }

  lemma AcceptKeepsOnce(
    s: Store, message: InboxMessage, route: InboxRoute, project: string, agent: Artifact,
    seen: Option<ThreadProjection>, ids: seq<Id>, rows: seq<Id>, now: Time)
    requires Faithful(s) && InboxInv(s)
    requires Accept(s, message, route, project, agent, seen, ids, rows, now).Ok?
    ensures InboxInv(Committed(s, Accept(s, message, route, project, agent, seen, ids, rows, now)))
  {
    hide InboxInv, Pending, EffectDone, LogAcceptance, PrepareTask, PrepareUpdate, SubmitTask, ApplyThreadUpdate,
      SameInbound, Faithful;
    var record := NewRecord(message, route, project);
    if record.messageKey !in s.inbox {
      var stored := LogAcceptance(s, record).(inbox := s.inbox[record.messageKey := record]);
      var t := Accept(s, message, route, project, agent, seen, ids, rows, now).value;
      AcceptedPending(s, record);
      if route.routeType.NewTask? {
        var objective := OrElse(route.taskText, Strip(message.text));
        var task := PrepareTask(record, objective, agent).value;
        PreparedTaskFits(record, objective, agent, task);
        TaskEffect(s, stored, record, task, ids, rows, now);
      } else if route.routeType.ThreadUpdate? && record.routeState.Confirmed? {
        var kind := if route.updateKind.Some? then route.updateKind.value else UpdateKind.Supplement;
        var update := PrepareUpdate(seen, ids, record, route.taskText, kind, agent, message.createdAt).value;
        UpdateEffect(stored, record, update, ids, rows, now);
      }
      EffectKeepsOnce(s, stored, t, record);
    }
  }

  /** A proposed record settled with its event. */
  lemma SettledPending(s: Store, record: InboxRecord, origin: Origin, event: InboxEvent, row: InboxRecord)
    requires InboxInv(s) && record.messageKey in s.inbox && Row(s.inbox, record.messageKey).routeState.Proposed?
    requires row.messageKey == record.messageKey && !row.routeState.Proposed? && !event.RouteProposed?
    ensures Pending(s, InboxLog(s, record, origin, event).(inbox := s.inbox[record.messageKey := row]), row)
  {
    hide Tally;
    assert OnceFor(s, record.messageKey);
    var u := InboxLog(s, record, origin, event);
    forall key, what: Tracked
      ensures Tally(u.journal, key, what)
           == if key != record.messageKey then Tally(s.journal, key, what)
              else match what
                case AnEffect => Tally(s.journal, key, what)
                case AProposal => 1
                case ADeparture => One(!row.routeState.Proposed?)
    {
      InboxLogTally(s, record, origin, event, key, what);
    }
  }

  lemma ResolutionKeepsOnce(
    s: Store, record: InboxRecord, resolver: string, reason: string, task: Option<TaskSubmission>,
    update: Option<ThreadUpdateSubmission>, ids: seq<Id>, rows: seq<Id>)
    requires Faithful(s) && InboxInv(s)
    requires record.routeState.Corrected? || record.routeState.Expired?
    requires task.Some? ==> The(task).threadId == ThreadOf(record.messageKey)
    requires ResolveInboxRoute(s, record, resolver, reason, task, update, ids, rows).Ok?
    ensures InboxInv(Committed(s, ResolveInboxRoute(s, record, resolver, reason, task, update, ids, rows)))
  {
    hide Faithful, SameInbound, SameResolution, Pending, SubmitTask, ApplyThreadUpdate, Log, Tally;
    var key := record.messageKey;
    var stored := s.inbox[key];
    if stored.routeState.Proposed? {
      assert stored.messageKey == key by {
        assert OnceFor(s, key);
      }
      var row := Resolved(stored, record, resolver, reason);
      var origin := Origin(resolver, record.updatedAt, Some(key));
      var event := RouteResolved(record.routeType, record.routeState);
      var settled := InboxLog(s, record, origin, event).(inbox := s.inbox[key := row]);
      SettledPending(s, record, origin, event, row);
      var t := ApplyEffect(settled, task, update, ids, rows, record.updatedAt).value;
      if task.Some? {
        TaskEffect(s, settled, row, task.value, ids, rows, record.updatedAt);
      } else if update.Some? {
        UpdateEffect(settled, row, update.value, ids, rows, record.updatedAt);
      } else {
        assert EffectDone(settled, t, row, 0);
      }
      EffectKeepsOnce(s, settled, t, row);
    }
  }

  lemma ResolveKeepsOnce(
    s: Store, stored: InboxRecord, platform: string, actor: string, decision: Decision, target: Option<Id>,
    kind: Option<UpdateKind>, reason: string, agent: Artifact, seen: Option<ThreadProjection>, ids: seq<Id>,
    rows: seq<Id>, now: Time)
    requires Faithful(s) && InboxInv(s)
    requires ResolveRoute(s, stored, platform, actor, decision, target, kind, reason, agent, seen, ids, rows, now).Ok?
    ensures InboxInv(
      Committed(s, ResolveRoute(
        s, stored, platform, actor, decision, target, kind, reason, agent, seen, ids, rows, now)))
  {
    hide InboxInv, Faithful, PrepareTask, PrepareUpdate, ResolveInboxRoute, SameDecision;
    var resolver := platform + ":" + actor;
    var open := stored.(
      requiresConfirmation := false, updatedAt := now, resolvedBy := Some(resolver), resolutionReason := Some(reason));
    if stored.routeState.Proposed? {
      match decision
      case Expire =>
        ResolutionKeepsOnce(s, open.(routeState := RouteState.Expired), resolver, reason, None, None, ids, rows);
      case AsNewTask =>
        var record := open.(
          routeType := RouteType.NewTask, routeState := RouteState.Corrected,
          threadId := Some(ThreadOf(stored.messageKey)), updateKind := None);
        var task := PrepareTask(record, TextOf(stored.text), agent).value;
        PreparedTaskFits(record, TextOf(stored.text), agent, task);
        ResolutionKeepsOnce(s, record, resolver, reason, Some(task), None, ids, rows);
      case ToThread =>
        var chosen := KindOf(kind, stored.updateKind);
        var record := open.(
          routeType := RouteType.ThreadUpdate, routeState := RouteState.Corrected, threadId := target,
          updateKind := Some(chosen));
        var update := PrepareUpdate(seen, ids, record, TextOf(stored.text), chosen, agent, now).value;
        ResolutionKeepsOnce(s, record, resolver, reason, None, Some(update), ids, rows);
    }
  }

  // =========================================================================== deliveries
  // Deliveries form one gap-free chain per Thread, each backed by its completed Run and one notice.

  /** A Thread's deliveries in the order they were made. */
  function Chain(deliveries: seq<DeliveryRecord>, t: Id): seq<DeliveryRecord> {
    if deliveries == [] then []
    else
      var last := deliveries[|deliveries| - 1];
      Chain(deliveries[..|deliveries| - 1], t) + if last.threadId == t then [last] else []
  }

  predicate LinkAt(chain: seq<DeliveryRecord>, k: nat)
    requires k < |chain|
  {
    && chain[k].version == k + 1
    && chain[k].previous == (if k == 0 then None else Some(chain[k - 1].deliveryId))
  }

  /** Versions 1, 2, ..., n, each pointing at the one before. */
  ghost predicate Linked(chain: seq<DeliveryRecord>) {
    forall k :: 0 <= k < |chain| ==> LinkAt(chain, k)
  }

  function LastOf(chain: seq<DeliveryRecord>): Option<Id> {
    if chain == [] then None else Some(chain[|chain| - 1].deliveryId)
  }

  /** The delivery's Run is completed and its output is what was delivered. */
  ghost predicate Backed(s: Store, row: DeliveryRecord) {
    && row.threadId in s.threads && row.runId in ThreadAt(s, row.threadId).runs
    && RunAt(ThreadAt(s, row.threadId), row.runId).state.Completed?
    && RunAt(ThreadAt(s, row.threadId), row.runId).output == Some(row.primary)
    && row.deliveryId == DeliveryOf(row.threadId, row.runId, row.version)
  }

  predicate Announces(item: OutboxItem, row: DeliveryRecord) {
    && item.deliveryId == row.deliveryId && item.outboxId == OutboxOf(row.deliveryId)
    && item.threadId == row.threadId && item.runId == row.runId && item.payload == row.summary
  }

  ghost predicate DistinctRuns(deliveries: seq<DeliveryRecord>) {
    forall i, j :: 0 <= i < j < |deliveries| ==> deliveries[i].runId != deliveries[j].runId
  }

  ghost predicate DeliveryInv(s: Store) {
    && (forall t :: Linked(Chain(s.deliveries, t)))
    && (forall t :: t in s.threads ==> s.threads[t].latestDelivery == LastOf(Chain(s.deliveries, t)))
    && (forall i :: 0 <= i < |s.deliveries| ==> Backed(s, s.deliveries[i]))
    && DistinctRuns(s.deliveries)
    && |s.outbox| == |s.deliveries|
    && (forall i :: 0 <= i < |s.deliveries| ==> Announces(s.outbox[i], s.deliveries[i]))
  }

  predicate RecordsDelivery(event: Event, t: Id) {
    match event.body
    case OfThread(DeliveryRecorded(_)) => event.stream == ThreadStream(t)
    case _ => false
  }

  function LatestIn(p: Option<ThreadProjection>): Option<Id> {
    if p.Some? then p.value.latestDelivery else None
  }

  lemma LatestKept(p: ThreadProjection, event: Event, change: ThreadEvent)
    requires ReduceExisting(p, event, change).Ok? && !change.DeliveryRecorded?
    ensures Reducer.Moved(p, ReduceExisting(p, event, change)).latestDelivery == p.latestDelivery
  {
    hide ThreadTransitions, RunTransitions, Terminal;
  }

  /** A Thread's latest delivery changes only by being recorded. */
  lemma {:induction false} LatestStays(
    before: seq<Event>, more: seq<Event>, t: Id, p: Option<ThreadProjection>, q: Option<ThreadProjection>)
    requires Replay(before, t) == Ok(p) && Replay(before + more, t) == Ok(q)
    requires forall e :: e in more ==> !RecordsDelivery(e, t)
    ensures LatestIn(q) == LatestIn(p)
    decreases |more|
  {
    hide ReduceExisting;
    if more == [] {
      assert before + more == before;
    } else {
      var n := |more| - 1;
      assert (before + more)[..|before| + n] == before + more[..n];
      var earlier := Replay(before + more[..n], t).value;
      LatestStays(before, more[..n], t, p, earlier);
      assert !RecordsDelivery(more[n], t);
      if more[n].stream == ThreadStream(t) && earlier.Some? {
        LatestKept(earlier.value, more[n], more[n].body.thread);
      }
    }
  }

  /** From s to u no delivery was recorded for Thread t. */
  ghost predicate Undelivered(s: Store, u: Store, t: Id) {
    s.journal <= u.journal && forall e :: e in u.journal[|s.journal|..] ==> !RecordsDelivery(e, t)
  }

  /** A delivery once backed stays backed, whatever comes after. */
  lemma BackedForever(s: Store, u: Store, row: DeliveryRecord)
    requires Faithful(s) && Faithful(u) && s.journal <= u.journal && Backed(s, row)
    ensures Backed(u, row)
  {
    hide Replay, Sequenced;
    var t := row.threadId;
    assert Replay(s.journal, t) == Ok(Lookup(s.threads, t));
    assert Replay(u.journal, t) == Ok(Lookup(u.threads, t));
    var _ := ReplayFreezesEndedRuns(s.journal, u.journal, t, s.threads[t], row.runId);
  }

  /** A Thread that does not exist has no delivery. */
  lemma {:induction false} ChainNeedsThread(s: Store, deliveries: seq<DeliveryRecord>, t: Id)
    requires forall i :: 0 <= i < |deliveries| ==> Backed(s, deliveries[i])
    requires t !in s.threads
    ensures Chain(deliveries, t) == []
    decreases |deliveries|
  {
    if deliveries != [] {
      ChainNeedsThread(s, deliveries[..|deliveries| - 1], t);
      assert Backed(s, deliveries[|deliveries| - 1]);
    }
  }

  lemma UndeliveredKeeps(s: Store, u: Store)
    requires Faithful(s) && Faithful(u) && DeliveryInv(s)
    requires u.deliveries == s.deliveries && u.outbox == s.outbox
    requires forall t :: Undelivered(s, u, t)
    ensures DeliveryInv(u)
  {
    hide Backed, Replay;
    assert s.journal <= u.journal by { assert Undelivered(s, u, Lit("")); }
    forall t | t in u.threads
      ensures u.threads[t].latestDelivery == LastOf(Chain(u.deliveries, t))
    {
      assert Undelivered(s, u, t);
      assert Replay(s.journal, t) == Ok(Lookup(s.threads, t));
      assert Replay(u.journal, t) == Ok(Lookup(u.threads, t));
      var more := u.journal[|s.journal|..];
      assert u.journal == s.journal + more;
      LatestStays(s.journal, more, t, Lookup(s.threads, t), Lookup(u.threads, t));
      if t !in s.threads {
        ChainNeedsThread(s, s.deliveries, t);
      }
    }
    forall i | 0 <= i < |u.deliveries|
      ensures Backed(u, u.deliveries[i])
    {
      BackedForever(s, u, s.deliveries[i]);
    }
  }

  // ---------------------------------------------------------------- one more delivery

  lemma LinkedPrefix(chain: seq<DeliveryRecord>, k: nat)
    requires Linked(chain) && k <= |chain|
    ensures Linked(chain[..k])
  {
    forall j | 0 <= j < k
      ensures LinkAt(chain[..k], j)
    {
      assert LinkAt(chain, j);
    }
  }

  /** The query for the prior delivery finds the end of the chain. */
  lemma {:induction false} PriorIsLast(deliveries: seq<DeliveryRecord>, t: Id)
    requires Linked(Chain(deliveries, t))
    ensures var chain := Chain(deliveries, t);
      Prior(deliveries, t) == if chain == [] then None else Some(chain[|chain| - 1])
    decreases |deliveries|
  {
    if deliveries != [] {
      var n := |deliveries| - 1;
      var chain, earlier := Chain(deliveries, t), Chain(deliveries[..n], t);
      hide Linked;
      LinkedPrefix(chain, |earlier|);
      assert chain[..|earlier|] == earlier;
      PriorIsLast(deliveries[..n], t);
      if earlier != [] {
        assert LinkAt(earlier, |earlier| - 1);
      }
      if deliveries[n].threadId == t {
        assert chain[|chain| - 1].version == |chain| by {
          assert LinkAt(chain, |chain| - 1);
        }
        assert chain == earlier + [deliveries[n]];
      } else {
        assert chain == earlier;
      }
    }
  }

  lemma ChainAppend(deliveries: seq<DeliveryRecord>, row: DeliveryRecord, t: Id)
    ensures Chain(deliveries + [row], t) == Chain(deliveries, t) + if row.threadId == t then [row] else []
  {
    assert (deliveries + [row])[..|deliveries|] == deliveries;
  }

  /** What finalizing adds, seen from the delivery tables. */
  ghost predicate Delivers(s: Store, u: Store, row: DeliveryRecord, item: OutboxItem) {
    && u.deliveries == s.deliveries + [row] && u.outbox == s.outbox + [item] && Announces(item, row)
    && Backed(u, row)
    && row.threadId in s.threads && ThreadAt(u, row.threadId).latestDelivery == Some(row.deliveryId)
    && u.threads == s.threads[row.threadId := ThreadAt(u, row.threadId)]
    && var prior := Prior(s.deliveries, row.threadId);
    && row.version == (if prior.Some? then prior.value.version + 1 else 1)
    && row.previous == (if prior.Some? then Some(prior.value.deliveryId) else None)
    && !DeliveryClashes(s.deliveries, row)
  }

  lemma LinkedAppend(chain: seq<DeliveryRecord>, row: DeliveryRecord)
    requires Linked(chain) && row.version == |chain| + 1 && row.previous == LastOf(chain)
    ensures Linked(chain + [row]) && LastOf(chain + [row]) == Some(row.deliveryId)
  {
    forall k | 0 <= k < |chain|
      ensures LinkAt(chain + [row], k)
    {
      assert LinkAt(chain, k);
    }
    assert LinkAt(chain + [row], |chain|);
  }

  lemma DeliversKeeps(s: Store, u: Store, row: DeliveryRecord, item: OutboxItem)
    requires Faithful(s) && Faithful(u) && s.journal <= u.journal && DeliveryInv(s) && Delivers(s, u, row, item)
    ensures DeliveryInv(u)
  {
    hide Faithful, Backed, Chain, Prior;
    forall t
      ensures Linked(Chain(u.deliveries, t))
      ensures t in u.threads ==> u.threads[t].latestDelivery == LastOf(Chain(u.deliveries, t))
    {
      var chain := Chain(s.deliveries, t);
      ChainAppend(s.deliveries, row, t);
      if t == row.threadId {
        PriorIsLast(s.deliveries, t);
        assert chain != [] ==> LinkAt(chain, |chain| - 1);
        LinkedAppend(chain, row);
      } else {
        assert chain + [] == chain;
      }
    }
    forall i | 0 <= i < |u.deliveries|
      ensures Backed(u, u.deliveries[i]) && Announces(u.outbox[i], u.deliveries[i])
    {
      if i < |s.deliveries| {
        BackedForever(s, u, s.deliveries[i]);
      }
    }
    assert DistinctRuns(s.deliveries + [row]);
  }

  // ---------------------------------------------------------------- presenting

  /** The same rows but for their presentation state. */
  ghost predicate SameRows(a: seq<DeliveryRecord>, b: seq<DeliveryRecord>) {
    |a| == |b| && forall i :: 0 <= i < |a| ==> b[i] == a[i].(state := b[i].state)
  }

  lemma {:induction false} SameRowsChain(a: seq<DeliveryRecord>, b: seq<DeliveryRecord>, t: Id)
    requires SameRows(a, b)
    ensures SameRows(Chain(a, t), Chain(b, t))
    decreases |a|
  {
    if a != [] {
      SameRowsChain(a[..|a| - 1], b[..|b| - 1], t);
    }
  }

  lemma SameRowsKeep(s: Store, u: Store)
    requires DeliveryInv(s) && SameRows(s.deliveries, u.deliveries)
    requires u.threads == s.threads && u.outbox == s.outbox
    ensures DeliveryInv(u)
  {
    hide Chain;
    forall t
      ensures Linked(Chain(u.deliveries, t)) && LastOf(Chain(u.deliveries, t)) == LastOf(Chain(s.deliveries, t))
    {
      SameRowsChain(s.deliveries, u.deliveries, t);
      assert Linked(Chain(s.deliveries, t));
      forall k | 0 <= k < |Chain(u.deliveries, t)|
        ensures LinkAt(Chain(u.deliveries, t), k)
      {
        assert LinkAt(Chain(s.deliveries, t), k);
      }
    }
    assert DistinctRuns(u.deliveries) by {
      forall i, j | 0 <= i < j < |u.deliveries|
        ensures u.deliveries[i].runId != u.deliveries[j].runId
      {
        assert s.deliveries[i].runId != s.deliveries[j].runId;
      }
    }
    forall i | 0 <= i < |u.deliveries|
      ensures Backed(u, u.deliveries[i]) && Announces(u.outbox[i], u.deliveries[i])
    {
      assert Backed(s, s.deliveries[i]) && Announces(s.outbox[i], s.deliveries[i]);
      assert Backed(u, u.deliveries[i]) && Announces(s.outbox[i], u.deliveries[i]);
    }
  }

  // ---------------------------------------------------------------- finalizing

  lemma FinalizeDelivers(
    s: Store, claim: WorkerClaim, executorKey: string, primary: Artifact, report: Artifact, summary: Artifact,
    supporting: seq<Artifact>, now: Time)
    requires OpenInv(s) && AgreeInv(s)
    requires FinalizeDelivery(s, claim, executorKey, primary, report, summary, supporting, now).Ok?
    ensures
      var u := Committed(s, FinalizeDelivery(s, claim, executorKey, primary, report, summary, supporting, now));
      var row := NextDelivery(s, claim, primary, report, summary, supporting, now);
      && Delivers(s, u, row, OutboxItem(OutboxOf(row.deliveryId), row.deliveryId, claim.threadId, claim.runId,
          summary, now))
      && u.inbox == s.inbox
  {
    hide OpenInv, AgreeInv, Mid, Skeleton, CloseThread, Log, DeliveryClashes, Sound, Confined, Advance, ClaimNextRun,
      Coupled, Mirrors;
    var t := claim.threadId;
    var l := Enter(s, t);
    LiveMeansNewest(s, claim, now, l);
    var row := NextDelivery(s, claim, primary, report, summary, supporting, now);
    var origin := Origin(claim.worker, now, None);
    var stream := DeliveryStream(row.deliveryId);
    var prepared := Log(s, stream, Some(t), origin, DeliveryPrepared(row.version));
    LogSound(s, stream, Some(t), origin, DeliveryPrepared(row.version));
    SoundKeepsOpen(s, prepared);
    LogKeepsTables(s, stream, Some(t), origin, DeliveryPrepared(row.version));
    SameRowsMid(s, prepared, t, l);
    var closed := CloseThread(prepared, claim, row.deliveryId, primary, origin).value;
    CloseThreadMid(prepared, claim, l, row.deliveryId, primary, origin);
    CloseThreadOnly(prepared, claim, row.deliveryId, primary, origin);
    var settled := SettleJob(closed, l, Done, None, origin);
    LogKeepsTables(settled, stream, Some(t), Origin("outbox", now, None), DeliveryNotified(OutboxOf(row.deliveryId)));
  }

  lemma EmitOnlyThread(s: Store, t: Id, origin: Origin, change: ThreadEvent)
    requires Emit(s, t, origin, change).Ok?
    ensures var u := Committed(s, Emit(s, t, origin, change));
      t in u.threads && u == s.(journal := u.journal, threads := s.threads[t := ThreadAt(u, t)])
  {
    hide Reduce, Insert, Envelope, ThreadDraft;
  }

  lemma CloseThreadOnly(s: Store, claim: WorkerClaim, delivery: Id, primary: Artifact, origin: Origin)
    requires claim.threadId in s.threads && CloseThread(s, claim, delivery, primary, origin).Ok?
    ensures var u := Committed(s, CloseThread(s, claim, delivery, primary, origin)); var t := claim.threadId;
      t in u.threads && u == s.(journal := u.journal, threads := s.threads[t := ThreadAt(u, t)])
  {
    hide Emit;
    var t := claim.threadId;
    var change := RunStateChanged(claim.runId, RunState.Running, RunState.Completed, [], Some(Some(primary)), None);
    var moved := ThreadStateChanged(s.threads[t].actual, ThreadState.Delivered, []);
    var a := Emit(s, t, origin, DeliveryRecorded(delivery)).value;
    var b := Emit(a, t, origin, change).value;
    var c := Emit(b, t, origin, moved).value;
    EmitOnlyThread(s, t, origin, DeliveryRecorded(delivery));
    EmitOnlyThread(a, t, origin, change);
    EmitOnlyThread(b, t, origin, moved);
    EmitOnlyThread(c, t, origin, AttentionChanged(AttentionState.DeliveryReady));
  }

  lemma OpenParts(s: Store)
    requires OpenInv(s)
    ensures Faithful(s)
  {
    hide ClaimNextRun, Faithful, ReplayJob, ActionsInv, SchedulerInv;
  }

  lemma AdvanceJournal(s: Store, u: Store)
    requires Advance(s, u)
    ensures s.journal <= u.journal
  {
  }
}
