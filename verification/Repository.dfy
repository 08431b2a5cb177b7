/** The repository object: its tables are updated in place, one transaction at a time, and a
    transaction that fails puts them back. Each method is the transaction of the same name. */
module Repository {
  import opened Prelude
  import opened Vocabulary
  import opened Journal
  import opened Reducer
  import opened Store
  import opened Scheduler
  import opened Actions
  import opened Resources
  import opened Lifecycle
  import opened Integrity
  import opened Protocol
  import opened Theorems

  /** What a method may do: commit exactly what the transaction says, or raise its error and change
      nothing. */
  ghost predicate Commits(spec: Result<Store>, before: Store, after: Store, r: Result<()>) {
    match spec
    case Ok(t) => after == t && r.Ok?
    case Err(error) => after == before && r == Err(error)
  }

  /** Two transactions one after the other: when the first raises nothing happens, and what it committed
      stays when the second raises. */
  ghost predicate CommitsAfter(
    first: Result<Store>, second: Store -> Result<Store>, before: Store, after: Store, r: Result<()>) {
    match first
    case Ok(t) => Commits(second(t), t, after, r)
    case Err(error) => after == before && r == Err(error)
  }

  /** The Thread's move of `start_claimed_run`. */
  function ThreadStarts(s: Store, claim: WorkerClaim, now: Time): Result<Store> {
    if claim.threadId in s.threads && !s.threads[claim.threadId].actual.Running? then
      Emit(s, claim.threadId, Origin(claim.worker, now, None),
        ThreadStateChanged(s.threads[claim.threadId].actual, ThreadState.Running, []))
    else Ok(s)
  }

  /** The events of `start_claimed_run`, once its guards are passed. */
  function StartEvents(s: Store, claim: WorkerClaim, run: RunProjection, now: Time): Result<Store> {
    var started := ThreadStarts(s, claim, now);
    if started.Err? || run.state.Running? then started
    else
      Emit(started.value, claim.threadId, Origin(claim.worker, now, None),
        RunStateChanged(claim.runId, run.state, RunState.Running, [], None, None))
  }

  lemma StartIs(s: Store, claim: WorkerClaim, now: Time)
    ensures StartClaimedRun(s, claim, now) ==
      if !Live(s, claim, now) then Err(StaleLease)
      else if claim.threadId !in s.threads || claim.runId !in s.threads[claim.threadId].runs then Err(Error.NotFound)
      else
        var p, run := s.threads[claim.threadId], s.threads[claim.threadId].runs[claim.runId];
        if !SnapshotsBoundTo(run) || !p.desired.Run? then Err(InvalidTransition) else StartEvents(s, claim, run, now)
  {
    hide Emit, Live, SnapshotsBoundTo;
  }

  /** An update once it is admitted: its message, and then the cancellation or the new Run. */
  function AdmittedUpdate(s: Store, sub: ThreadUpdateSubmission, runs: seq<Id>, rows: seq<Id>): Result<Store>
    requires sub.threadId in s.threads
  {
    var origin := UpdateOrigin(sub);
    var noted := Emit(s, sub.threadId, origin,
      MessageAppended(sub.messageKey, sub.message, sub.text, sub.kind, s.threads[sub.threadId].currentBranch, sub.task,
                      sub.context, sub.newRun));
    if noted.Err? then noted
    else if sub.kind.Cancel? then CancelThread(noted.value, sub.threadId, runs, rows, origin)
    else Superseding(noted.value, sub, rows, origin)
  }

  function Superseding(s: Store, sub: ThreadUpdateSubmission, rows: seq<Id>, origin: Origin): Result<Store> {
    var cleared := CancelForUpdate(s, sub.threadId, sub.supersedesRuns, rows, SupersededBy(sub.kind), origin);
    if cleared.Err? then cleared else StartNewRun(cleared.value, sub, origin)
  }

  class RuntimeRepository {
    var clock: Time
    var journal: seq<Event>
    var threads: map<Id, ThreadProjection>
    var jobs: map<Id, SchedulerJob>
    var steps: map<Id, StepRecord>
    var deliveries: seq<DeliveryRecord>
    var outbox: seq<OutboxItem>
    var inbox: map<Id, InboxRecord>
    var intents: map<Id, ActionIntent>
    var intentByKey: map<string, Id>
    var approvals: map<Id, ApprovalRequest>
    var approvalOf: map<Id, Id>
    var receipts: seq<ActionReceipt>
    var fences: map<string, nat>
    var leases: map<string, ResourceLease>

    function State(): Store
      reads this
    {
      Store(
        clock, journal, threads, jobs, steps, deliveries, outbox, inbox, intents, intentByKey, approvals, approvalOf,
        receipts, fences, leases)
    }

    constructor (start: Time)
      ensures State() == EmptyStore(start)
    {
      clock, journal, threads, jobs, steps := start, [], map[], map[], map[];
      deliveries, outbox, inbox, intents, intentByKey := [], [], map[], map[], map[];
      approvals, approvalOf, receipts, fences, leases := map[], map[], [], map[], map[];
    }

    /** ROLLBACK of everything a life-cycle transaction writes. */
    method Rollback(s: Store)
      requires State() == s.(
        journal := journal, threads := threads, jobs := jobs, intents := intents, approvals := approvals)
      modifies `journal, `threads, `jobs, `intents, `approvals
      ensures State() == s
    {
      journal, threads, jobs, intents, approvals := s.journal, s.threads, s.jobs, s.intents, s.approvals;
    }

    // -------------------------------------------------------------- the journal

    /** `SELECT COALESCE(MAX(sequence), 0)`. */
    method MaxSequence(stream: Stream) returns (last: nat)
      ensures last == LastSequence(journal, stream)
    {
      last := 0;
      for i := 0 to |journal|
        invariant last == LastSequence(journal[..i], stream)
      {
        assert journal[..i + 1][..i] == journal[..i];
        if journal[i].stream == stream && journal[i].sequence > last {
          last := journal[i].sequence;
        }
      }
      assert journal[..|journal|] == journal;
    }

    /** `_insert_event`. */
    method InsertEvent(draft: Draft) returns (event: Event)
      modifies `journal
      ensures journal == Insert(old(journal), draft) && event == Envelope(old(journal), draft)
    {
      var last := MaxSequence(draft.stream);
      event := Event(
        |journal|, last + 1,
        if draft.given.Some? then Given(draft.given.value) else Generated(|journal|),
        draft.stream, draft.thread, draft.actor, draft.at, draft.correlation, draft.body);
      journal := journal + [event];
    }

    method LogEvent(stream: Stream, thread: Option<Id>, origin: Origin, body: Body)
      modifies `journal
      ensures State() == Log(old(State()), stream, thread, origin, body)
    {
      var event := InsertEvent(DraftOf(stream, thread, origin, body));
    }

    /** Inserts a Thread event, reduces it onto the stored projection and stores the outcome. */
    method EmitOne(thread: Id, draft: Draft) returns (r: Result<()>)
      modifies `journal, `threads
      ensures Commits(EmitDraft(old(State()), thread, draft), old(State()), State(), r)
    {
      hide Envelope, Reduce;
      var before := journal;
      var event := InsertEvent(draft);
      var next := Reduce(Lookup(threads, thread), event);
      if next.Err? {
        journal := before;
        return Err(next.error);
      }
      threads := threads[thread := next.value];
      return Ok(());
    }

    method EmitEvent(thread: Id, origin: Origin, change: ThreadEvent) returns (r: Result<()>)
      modifies `journal, `threads
      ensures Commits(Emit(old(State()), thread, origin, change), old(State()), State(), r)
    {
      hide EmitDraft, ThreadDraft;
      r := EmitOne(thread, ThreadDraft(thread, origin, change));
    }

    method EmitIf(needed: bool, thread: Id, origin: Origin, change: ThreadEvent) returns (r: Result<()>)
      modifies `journal, `threads
      ensures Commits(
        if needed then Emit(old(State()), thread, origin, change) else Ok(old(State())), old(State()), State(), r)
    {
      hide Emit;
      if needed {
        r := EmitEvent(thread, origin, change);
      } else {
        r := Ok(());
      }
    }

    /** The loop over a batch of drafts, rolled back as a whole. */
    method EmitBatch(thread: Id, drafts: seq<Draft>) returns (r: Result<()>)
      modifies `journal, `threads
      ensures Commits(EmitDrafts(old(State()), thread, drafts), old(State()), State(), r)
    {
      hide EmitDraft;
      var events, projections := journal, threads;
      ghost var before := State();
      for i := 0 to |drafts|
        invariant EmitDrafts(before, thread, drafts[..i]) == Ok(State())
      {
        assert drafts[..i + 1][..i] == drafts[..i];
        r := EmitOne(thread, drafts[i]);
        if r.Err? {
          assert drafts[..i + 1] + drafts[i + 1..] == drafts;
          BatchFails(before, thread, drafts[..i + 1], drafts[i + 1..]);
          journal, threads := events, projections;
          return;
        }
      }
      assert drafts[..|drafts|] == drafts;
      return Ok(());
    }

    /** `append_thread_events`. */
    method AppendEvents(thread: Id, drafts: seq<Draft>, expectedRevision: nat) returns (r: Result<()>)
      modifies `journal, `threads
      ensures Commits(AppendThreadEvents(old(State()), thread, drafts, expectedRevision), old(State()), State(), r)
    {
      hide EmitDrafts, AllOwn, AllRecorded, AnyRecorded, AllUnaltered, IdRepeats;
      if drafts == [] || !AllOwn(thread, drafts) {
        return Err(ValueError);
      }
      if AllRecorded(journal, drafts) {
        if !AllUnaltered(journal, drafts) {
          return Err(IdempotencyConflict);
        }
        return if thread !in threads then Err(Error.NotFound) else Ok(());
      }
      if AnyRecorded(journal, drafts) {
        return Err(IdempotencyConflict);
      }
      if (if thread in threads then threads[thread].revision else 0) != expectedRevision {
        return Err(ConcurrencyConflict);
      }
      if IdRepeats(drafts) {
        return Err(IntegrityError);
      }
      r := EmitBatch(thread, drafts);
    }

    /** `bind_run_snapshots`. */
    method BindSnapshots(
      thread: Id, runId: Id, task: Artifact, agent: Artifact, context: Artifact, expectedRevision: nat, origin: Origin)
      returns (r: Result<()>)
      modifies `journal, `threads
      ensures Commits(
        BindRunSnapshots(old(State()), thread, runId, task, agent, context, expectedRevision, origin), old(State()),
        State(), r)
    {
      hide Emit;
      if thread !in threads || runId !in threads[thread].runs {
        return Err(Error.NotFound);
      }
      if threads[thread].revision != expectedRevision {
        return Err(ConcurrencyConflict);
      }
      r := EmitEvent(thread, origin, SnapshotsBound(runId, task, agent, context));
    }

    /** `replay_thread`: the loop of the reducer over the Thread's events. */
    method ReplayThread(thread: Id) returns (r: Result<Option<ThreadProjection>>)
      ensures r == Replay(journal, thread)
    {
      hide Reduce;
      var projection: Option<ThreadProjection> := None;
      for i := 0 to |journal|
        invariant Replay(journal[..i], thread) == Ok(projection)
      {
        assert journal[..i + 1][..i] == journal[..i];
        if journal[i].stream == ThreadStream(thread) {
          var next := Reduce(projection, journal[i]);
          if next.Err? {
            assert journal[..i + 1] + journal[i + 1..] == journal;
            ReplayFails(journal[..i + 1], journal[i + 1..], thread);
            return Err(next.error);
          }
          projection := Some(next.value);
        }
      }
      assert journal[..|journal|] == journal;
      return Ok(projection);
    }

    // -------------------------------------------------------------- the scheduler

    method PutJob(runId: Id, job: SchedulerJob, origin: Origin, event: JobEvent)
      modifies `journal, `jobs
      ensures State() == WriteJob(old(State()), runId, job, origin, event)
    {
      jobs := jobs[runId := job];
      var _ := InsertEvent(DraftOf(JobStream(runId), Some(job.threadId), origin, OfJob(event)));
    }

    method AddJob(job: SchedulerJob, origin: Origin) returns (r: Result<()>)
      modifies `journal, `jobs
      ensures Commits(InsertJob(old(State()), job, origin), old(State()), State(), r)
    {
      hide WriteJob;
      if job.runId in jobs {
        return Err(IntegrityError);
      }
      PutJob(job.runId, job, origin, RunEnqueued(job.priority, job.availableAt, job.maxAttempts, job.executorKey));
      return Ok(());
    }

    /** `submit_task`. */
    method Submit(sub: TaskSubmission, now: Time) returns (r: Result<()>)
      modifies `journal, `threads, `jobs
      ensures Commits(SubmitTask(old(State()), sub, now), old(State()), State(), r)
    {
      hide EmitDrafts, InsertJob, NonBlank, SameSubmission, SubmissionDrafts;
      if (sub.task.Some? || sub.agent.Some? || sub.context.Some?)
         && !(sub.task.Some? && sub.agent.Some? && sub.context.Some?) {
        return Err(ValueError);
      }
      if sub.maxAttempts < 1 || !NonBlank(sub.executorKey) {
        return Err(ValueError);
      }
      if sub.threadId in threads {
        return if SameSubmission(threads[sub.threadId], sub) then Ok(()) else Err(IdempotencyConflict);
      }
      var events, projections := journal, threads;
      r := EmitBatch(sub.threadId, SubmissionDrafts(sub, now));
      if r.Err? {
        return;
      }
      r := AddJob(
        NewJob(sub.runId, sub.threadId, sub.priority, now, sub.maxAttempts, sub.executorKey, now),
        Origin("scheduler", now, sub.correlation));
      if r.Err? {
        journal, threads := events, projections;
      }
    }

    /** `_fail_exhausted_worker_claims`. */
    method SweepExhausted(now: Time, rows: seq<Id>)
      modifies `journal, `jobs
      ensures State() == Sweep(old(State()), now, rows)
    {
      hide WriteJob;
      ghost var before := State();
      for i := 0 to |rows|
        invariant State() == Sweep(before, now, rows[..i])
      {
        assert rows[..i + 1][..i] == rows[..i];
        var r := rows[i];
        if Exhausted(State(), r, now) {
          var text := Some("worker lease expired after final attempt");
          var job := jobs[r].(state := JobState.Failed, lease := None, lastError := text, updatedAt := now);
          PutJob(r, job, Origin("scheduler-recovery", now, None), RunFailed(job.token, text));
        }
      }
      assert rows[..|rows|] == rows;
    }

    /** The claim query over the table in any order: the first eligible row by priority, then
        availability, then age. */
    method SelectNext(order: seq<Id>, keys: Option<set<string>>, now: Time) returns (pick: Option<Id>)
      requires forall r :: r in jobs ==> r in order
      ensures Picks(State(), now, keys, pick)
    {
      pick := None;
      for i := 0 to |order|
        invariant pick.Some? ==> Eligible(State(), pick.value, now, keys)
        invariant forall k :: 0 <= k < i && Eligible(State(), order[k], now, keys) ==>
          pick.Some? && NotAfter(jobs[pick.value], jobs[order[k]])
      {
        if Eligible(State(), order[i], now, keys) {
          if pick.None? || !NotAfter(jobs[pick.value], jobs[order[i]]) {
            pick := Some(order[i]);
          }
        }
      }
      forall r | r in jobs && Eligible(State(), r, now, keys)
        ensures pick.Some? && NotAfter(jobs[pick.value], jobs[r])
      {
        var k :| 0 <= k < |order| && order[k] == r;
      }
    }

    /** `claim_next_run`: sweep, select, claim. */
    method ClaimNext(
      worker: string, leaseId: string, seconds: int, keys: Option<set<string>>, rows: seq<Id>, order: seq<Id>,
      now: Time) returns (r: Result<Option<WorkerClaim>>, ghost pick: Option<Id>)
      requires forall x :: x in jobs ==> x in order
      modifies `journal, `jobs
      ensures Picks(Sweep(old(State()), now, rows), now, keys, pick)
      ensures var spec := ClaimNextRun(old(State()), worker, leaseId, seconds, keys, rows, pick, now);
        && r.Ok? == spec.Ok?
        && (spec.Ok? ==> State() == spec.value.0 && r.value == spec.value.1)
        && (spec.Err? ==> State() == old(State()) && r.error == spec.error)
    {
      hide Insert, Sweep;
      ghost var before := State();
      SweepKeepsRows(before, now, rows);
      if seconds < 1 || keys == Some({}) {
        pick := QueryAnswers(Sweep(before, now, rows), now, keys);
        return if seconds < 1 then Err(ValueError) else Ok(None), pick;
      }
      SweepExhausted(now, rows);
      var selected := SelectNext(order, keys, now);
      pick := selected;
      if selected.None? {
        return Ok(None), pick;
      }
      var runId, row := selected.value, jobs[selected.value];
      var job := row.(
        state := JobState.Claimed, attempts := row.attempts + 1, token := row.token + 1,
        lease := Some(Lease(worker, leaseId, now + seconds)), updatedAt := now);
      PutJob(runId, job, Origin(worker, now, None),
             RunClaimed(leaseId, job.token, now + seconds, job.attempts, row.state.Claimed?));
      return Ok(Some(ClaimOn(State(), runId))), pick;
    }

    /** `start_claimed_run`. */
    method Start(claim: WorkerClaim, now: Time) returns (r: Result<()>)
      modifies `journal, `threads
      ensures Commits(StartClaimedRun(old(State()), claim, now), old(State()), State(), r)
    {
      hide StartEvents, Live, SnapshotsBoundTo, StartClaimedRun;
      StartIs(State(), claim, now);
      if !Live(State(), claim, now) {
        return Err(StaleLease);
      }
      if claim.threadId !in threads || claim.runId !in threads[claim.threadId].runs {
        return Err(Error.NotFound);
      }
      var p, run := threads[claim.threadId], threads[claim.threadId].runs[claim.runId];
      if !SnapshotsBoundTo(run) || !p.desired.Run? {
        return Err(InvalidTransition);
      }
      r := MoveToRunning(claim, run, now);
    }

    method MoveToRunning(claim: WorkerClaim, run: RunProjection, now: Time) returns (r: Result<()>)
      requires claim.threadId in threads
      modifies `journal, `threads
      ensures Commits(StartEvents(old(State()), claim, run, now), old(State()), State(), r)
    {
      hide Emit;
      var thread, origin := threads[claim.threadId], Origin(claim.worker, now, None);
      var events, projections := journal, threads;
      r := EmitIf(
        !thread.actual.Running?, claim.threadId, origin,
        ThreadStateChanged(thread.actual, ThreadState.Running, []));
      if r.Err? {
        return;
      }
      r := EmitIf(
        !run.state.Running?, claim.threadId, origin,
        RunStateChanged(claim.runId, run.state, RunState.Running, [], None, None));
      if r.Err? {
        journal, threads := events, projections;
      }
    }

    /** `heartbeat_run`. */
    method Heartbeat(claim: WorkerClaim, seconds: int, now: Time) returns (r: Result<()>)
      modifies `journal, `jobs
      ensures Commits(HeartbeatRun(old(State()), claim, seconds, now), old(State()), State(), r)
    {
      hide ClaimNextRun, WriteJob;
      if !Live(State(), claim, now) {
        return Err(StaleLease);
      }
      var job := jobs[claim.runId].(
        lease := Some(Lease(claim.worker, claim.leaseId, now + seconds)), updatedAt := now);
      PutJob(claim.runId, job, Origin(claim.worker, now, None), RunHeartbeat(claim.leaseId, claim.token,
          now + seconds));
      return Ok(());
    }

    /** `record_claimed_run_checkpoint`. */
    method SaveCheckpoint(claim: WorkerClaim, checkpoint: Artifact, now: Time) returns (r: Result<()>)
      modifies `journal, `threads
      ensures Commits(RecordClaimedCheckpoint(old(State()), claim, checkpoint, now), old(State()), State(), r)
    {
      hide Emit, Live;
      var checked := NeedActive(State(), claim, now);
      if checked.Fail? {
        return Err(checked.error);
      }
      var number := threads[claim.threadId].runs[claim.runId].checkpointSequence + 1;
      r := EmitEvent(claim.threadId, Origin(claim.worker, now, None), CheckpointRecorded(claim.runId, checkpoint,
          number));
    }

    method SettleRow(runId: Id, how: Settlement, errorText: Option<string>, origin: Origin)
      requires runId in jobs
      modifies `journal, `jobs
      ensures State() == SettleJob(old(State()), runId, how, errorText, origin)
    {
      hide WriteJob;
      var row := jobs[runId].(lease := None, lastError := errorText, updatedAt := origin.at);
      match how
      case Done => PutJob(runId, row.(state := JobState.Completed), origin, RunCompleted(row.token, errorText));
      case Retry(availableAt) =>
        PutJob(runId, row.(state := JobState.Queued, availableAt := availableAt), origin,
               RunRetryScheduled(row.token, availableAt, errorText));
      case GiveUp => PutJob(runId, row.(state := JobState.Failed), origin, RunFailed(row.token, errorText));
    }

    method SettleEvents(
      claim: WorkerClaim, how: Settlement, output: Option<Artifact>, error: Option<string>, origin: Origin)
      returns (r: Result<()>)
      requires claim.threadId in threads && claim.runId in threads[claim.threadId].runs
      modifies `journal, `threads
      ensures Commits(SettleThread(old(State()), claim, how, output, error, origin), old(State()), State(), r)
    {
      hide Emit, RunTarget, ThreadTarget;
      var events, projections := journal, threads;
      var t, p := claim.threadId, threads[claim.threadId];
      r := EmitEvent(
        t, origin, RunStateChanged(claim.runId, p.runs[claim.runId].state, RunTarget(how), [], Some(output), error));
      if r.Err? {
        return;
      }
      r := EmitEvent(t, origin, ThreadStateChanged(p.actual, ThreadTarget(how), []));
      if r.Ok? {
        r := EmitIf(how.GiveUp? && !p.attention.Failed?, t, origin, AttentionChanged(AttentionState.Failed));
      }
      if r.Err? {
        journal, threads := events, projections;
      }
    }

    /** `finish_claimed_execution`. */
    method FinishExecution(claim: WorkerClaim, executorKey: string, version: string, outcome: Outcome, now: Time)
      returns (r: Result<()>)
      modifies `journal, `threads, `jobs
      ensures Commits(
        FinishClaimedExecution(old(State()), claim, executorKey, version, outcome, now), old(State()), State(), r)
    {
      hide SettleThread, SettleJob, NonBlank, LastErrorOf, ErrorOf;
      if !NonBlank(executorKey) || !NonBlank(version)
        || (outcome.Failure? && (outcome.code == "" || outcome.error == "")) {
        return Err(ValueError);
      }
      var checked := NeedActive(State(), claim, now);
      if checked.Fail? {
        return Err(checked.error);
      }
      var job := jobs[claim.runId];
      var key := Strip(executorKey);
      if threads[claim.threadId].runs[claim.runId].executorKey != key || job.executorKey != key {
        return Err(InvalidTransition);
      }
      var how, origin := SettlementOf(outcome, job, now), Origin(claim.worker, now, None);
      r := SettleEvents(claim, how, OutputOf(outcome), ErrorOf(outcome), origin);
      if r.Ok? {
        SettleRow(claim.runId, how, LastErrorOf(outcome), origin);
      }
    }

    method CloseEvents(claim: WorkerClaim, delivery: Id, primary: Artifact, origin: Origin) returns (r: Result<()>)
      requires claim.threadId in threads
      modifies `journal, `threads
      ensures Commits(CloseThread(old(State()), claim, delivery, primary, origin), old(State()), State(), r)
    {
      hide Emit;
      var events, projections := journal, threads;
      var t, actual := claim.threadId, threads[claim.threadId].actual;
      r := EmitEvent(t, origin, DeliveryRecorded(delivery));
      if r.Ok? {
        r := EmitEvent(
          t, origin,
          RunStateChanged(claim.runId, RunState.Running, RunState.Completed, [], Some(Some(primary)), None));
      }
      if r.Ok? {
        r := EmitEvent(t, origin, ThreadStateChanged(actual, ThreadState.Delivered, []));
      }
      if r.Ok? {
        r := EmitEvent(t, origin, AttentionChanged(AttentionState.DeliveryReady));
      }
      if r.Err? {
        journal, threads := events, projections;
      }
    }

    /** The query for the highest version. */
    method PriorDelivery(thread: Id) returns (prior: Option<DeliveryRecord>)
      ensures prior == Prior(deliveries, thread)
    {
      prior := None;
      for i := 0 to |deliveries|
        invariant prior == Prior(deliveries[..i], thread)
      {
        assert deliveries[..i + 1][..i] == deliveries[..i];
        if deliveries[i].threadId == thread && (prior.None? || deliveries[i].version > prior.value.version) {
          prior := Some(deliveries[i]);
        }
      }
      assert deliveries[..|deliveries|] == deliveries;
    }

    method WriteDelivery(claim: WorkerClaim, row: DeliveryRecord, primary: Artifact, summary: Artifact, now: Time)
      returns (r: Result<()>)
      requires claim.threadId in threads && claim.runId in jobs
      modifies `journal, `threads, `jobs, `deliveries, `outbox
      ensures Commits(DeliverRow(old(State()), claim, row, primary, summary, now), old(State()), State(), r)
    {
      hide CloseThread, SettleJob, Log;
      var events, origin, stream := journal, Origin(claim.worker, now, None), DeliveryStream(row.deliveryId);
      LogEvent(stream, Some(claim.threadId), origin, DeliveryPrepared(row.version));
      LogKeepsTables(old(State()), stream, Some(claim.threadId), origin, DeliveryPrepared(row.version));
      r := CloseEvents(claim, row.deliveryId, primary, origin);
      if r.Err? {
        journal := events;
        return;
      }
      Announce(
        claim, row, OutboxItem(OutboxOf(row.deliveryId), row.deliveryId, claim.threadId, claim.runId, summary, now),
        origin);
    }

    method Announce(claim: WorkerClaim, row: DeliveryRecord, item: OutboxItem, origin: Origin)
      requires claim.runId in jobs
      modifies `journal, `jobs, `deliveries, `outbox
      ensures
        var settled := SettleJob(old(State()), claim.runId, Done, None, origin);
        State() == Log(
          settled, DeliveryStream(row.deliveryId), Some(claim.threadId), Origin("outbox", origin.at, None),
          DeliveryNotified(item.outboxId)).(
            deliveries := old(deliveries) + [row], outbox := old(outbox) + [item])
    {
      hide SettleJob, Log;
      SettleRow(claim.runId, Done, None, origin);
      LogKeepsTables(State(), DeliveryStream(row.deliveryId), Some(claim.threadId), Origin("outbox", origin.at, None),
               DeliveryNotified(item.outboxId));
      LogEvent(DeliveryStream(row.deliveryId), Some(claim.threadId), Origin("outbox", origin.at, None),
               DeliveryNotified(item.outboxId));
      deliveries, outbox := deliveries + [row], outbox + [item];
    }

    /** `finalize_claimed_delivery`: five tables and the journal close together or not at all. */
    method Finalize(
      claim: WorkerClaim, executorKey: string, primary: Artifact, report: Artifact, summary: Artifact,
      supporting: seq<Artifact>, now: Time) returns (r: Result<()>)
      modifies `journal, `threads, `jobs, `deliveries, `outbox
      ensures Commits(
        FinalizeDelivery(old(State()), claim, executorKey, primary, report, summary, supporting, now), old(State()),
        State(), r)
    {
      hide DeliverRow, DeliveryClashes, Prior;
      var checked := NeedActive(State(), claim, now);
      if checked.Fail? {
        return Err(checked.error);
      }
      if threads[claim.threadId].runs[claim.runId].executorKey != executorKey
         || jobs[claim.runId].executorKey != executorKey {
        return Err(InvalidTransition);
      }
      var prior := PriorDelivery(claim.threadId);
      var version := if prior.Some? then prior.value.version + 1 else 1;
      var row := DeliveryRecord(
        DeliveryOf(claim.threadId, claim.runId, version), claim.threadId, claim.runId, version, DeliveryState.Prepared,
        summary, primary, Dedup(supporting), report, if prior.Some? then Some(prior.value.deliveryId) else None, now);
      if DeliveryClashes(deliveries, row) {
        return Err(IntegrityError);
      }
      r := WriteDelivery(claim, row, primary, summary, now);
    }

    /** `present_delivery`. */
    method Present(index: nat, actor: string, now: Time) returns (r: Result<()>)
      modifies `journal, `deliveries
      ensures Commits(PresentDelivery(old(State()), index, actor, now), old(State()), State(), r)
    {
      hide Log, NonBlank;
      if !NonBlank(actor) {
        return Err(ValueError);
      }
      if index >= |deliveries| {
        return Err(Error.NotFound);
      }
      var row := deliveries[index];
      if row.state.Presented? {
        return Ok(());
      }
      if row.threadId !in threads || row.runId !in threads[row.threadId].runs {
        return Err(Error.NotFound);
      }
      LogEvent(DeliveryStream(row.deliveryId), Some(row.threadId), Origin(actor, now, None), DeliveryShown);
      LogKeepsTables(old(State()), DeliveryStream(row.deliveryId), Some(row.threadId), Origin(actor, now, None),
          DeliveryShown);
      deliveries := deliveries[index := row.(state := DeliveryState.Presented)];
      return Ok(());
    }

    // -------------------------------------------------------------- Thread updates

    method PutIntent(intent: ActionIntent, origin: Origin, event: ActionEvent)
      modifies `journal, `intents
      ensures State() == WriteIntent(old(State()), intent, origin, event)
    {
      intents := intents[intent.intentId := intent];
      var _ := InsertEvent(DraftOf(ActionStream(intent.intentId), Some(intent.threadId), origin, OfAction(event)));
    }

    method PutApproval(approval: ApprovalRequest, origin: Origin, event: ApprovalEvent)
      modifies `journal, `approvals
      ensures State() == WriteApproval(old(State()), approval, origin, event)
    {
      LogEvent(ApprovalStream(approval.approvalId), OwnerThread(State(), approval.intentId), origin, OfApproval(event));
      LogKeepsTables(
        old(State()), ApprovalStream(approval.approvalId), OwnerThread(old(State()), approval.intentId), origin,
        OfApproval(event));
      approvals := approvals[approval.approvalId := approval];
    }

    /** `_cancel_pending_run_actions`. */
    method CancelPendingRunActions(runId: Id, rows: seq<Id>, reason: string, origin: Origin)
      modifies `journal, `intents, `approvals
      ensures State() == CancelPendingActions(old(State()), runId, rows, reason, origin)
    {
      hide WriteIntent, WriteApproval, CancelIntent;
      ghost var before := State();
      for i := 0 to |rows|
        invariant State() == CancelPendingActions(before, runId, rows[..i], reason, origin)
      {
        assert rows[..i + 1][..i] == rows[..i];
        if WaitingFor(State(), rows[i], runId) {
          CancelIntentRow(rows[i], reason, origin);
        }
      }
      assert rows[..|rows|] == rows;
    }

    method CancelIntentRow(intentId: Id, reason: string, origin: Origin)
      requires intentId in intents
      modifies `journal, `intents, `approvals
      ensures State() == CancelIntent(old(State()), intentId, reason, origin)
    {
      hide WriteIntent, WriteApproval;
      var intent := intents[intentId];
      if intentId in approvalOf && approvalOf[intentId] in approvals
        && approvals[approvalOf[intentId]].status.Pending? {
        var row := approvals[approvalOf[intentId]];
        PutApproval(
          row.(status := ApprovalState.Cancelled, updatedAt := origin.at, resolvedBy := Some(origin.actor)), origin,
          ApprovalCancelled(intentId));
      }
      PutIntent(
        intent.(status := ActionStatus.Cancelled, lastError := Some(reason), updatedAt := origin.at), origin,
        IntentCancelled(reason));
    }

    method CancelOneRun(thread: Id, runId: Id, rows: seq<Id>, reason: string, origin: Origin) returns (r: Result<()>)
      modifies `journal, `threads, `jobs, `intents, `approvals
      ensures Commits(CancelRun(old(State()), thread, runId, rows, reason, origin), old(State()), State(), r)
    {
      hide CancelPendingActions, Emit, WriteJob;
      if thread !in threads || runId !in threads[thread].runs || Terminal(threads[thread].runs[runId].state) {
        return Ok(());
      }
      var from, before := threads[thread].runs[runId].state, State();
      CancelPendingRunActions(runId, rows, reason, origin);
      r := EmitEvent(thread, origin, RunStateChanged(runId, from, RunState.Cancelled, [], None, None));
      if r.Err? {
        Rollback(before);
        return;
      }
      if runId in jobs && (jobs[runId].state.Queued? || jobs[runId].state.Claimed?) {
        var row := jobs[runId];
        PutJob(runId, row.(state := JobState.Cancelled, lease := None, updatedAt := origin.at), origin,
               RunCancelled(row.state, row.token));
      }
    }

    /** The loop of `_cancel_runs_for_update`. */
    method CancelListedRuns(thread: Id, runs: seq<Id>, rows: seq<Id>, reason: string, origin: Origin)
      returns (r: Result<()>)
      modifies `journal, `threads, `jobs, `intents, `approvals
      ensures Commits(CancelRuns(old(State()), thread, runs, rows, reason, origin), old(State()), State(), r)
    {
      hide CancelRun;
      var before := State();
      for i := 0 to |runs|
        invariant CancelRuns(before, thread, runs[..i], rows, reason, origin) == Ok(State())
        invariant State() == before.(
          journal := journal, threads := threads, jobs := jobs, intents := intents, approvals := approvals)
      {
        assert runs[..i + 1][..i] == runs[..i];
        r := CancelOneRun(thread, runs[i], rows, reason, origin);
        if r.Err? {
          assert runs[..i + 1] + runs[i + 1..] == runs;
          CancelRunsFail(before, thread, runs[..i + 1], runs[i + 1..], rows, reason, origin);
          Rollback(before);
          return;
        }
      }
      assert runs[..|runs|] == runs;
      return Ok(());
    }

    /** `_cancel_runs_for_update`. */
    method CancelRunsForUpdate(thread: Id, runs: seq<Id>, rows: seq<Id>, reason: string, origin: Origin)
      returns (r: Result<()>)
      modifies `journal, `threads, `jobs, `intents, `approvals
      ensures Commits(CancelForUpdate(old(State()), thread, runs, rows, reason, origin), old(State()), State(), r)
    {
      hide CancelRuns, SettleAttention;
      var before := State();
      r := CancelListedRuns(thread, runs, rows, reason, origin);
      if r.Ok? {
        r := CalmSettled(thread, origin);
        if r.Err? {
          Rollback(before);
        }
      }
    }

    method CalmSettled(thread: Id, origin: Origin) returns (r: Result<()>)
      modifies `journal, `threads
      ensures Commits(SettleAttention(old(State()), thread, origin), old(State()), State(), r)
    {
      hide Emit, NothingPending;
      var calm := thread in threads && threads[thread].attention.NeedsApproval? && NothingPending(State(), thread);
      r := EmitIf(calm, thread, origin, AttentionChanged(AttentionState.Calm));
    }

    method CancelTask(thread: Id, runs: seq<Id>, rows: seq<Id>, origin: Origin) returns (r: Result<()>)
      modifies `journal, `threads, `jobs, `intents, `approvals
      ensures Commits(CancelThread(old(State()), thread, runs, rows, origin), old(State()), State(), r)
    {
      hide Emit, CancelForUpdate;
      if thread !in threads {
        return Err(Error.NotFound);
      }
      if threads[thread].actual.Delivered? {
        return Err(InvalidTransition);
      }
      var before := State();
      r := EmitIf(!threads[thread].desired.Cancel?, thread, origin, DesiredStateChanged(DesiredState.Cancel));
      if r.Err? {
        return;
      }
      r := CancelRunsForUpdate(thread, runs, rows, USER_CANCELLED, origin);
      if r.Err? {
        Rollback(before);
        return;
      }
      if thread in threads && !threads[thread].actual.Cancelled? {
        r := EmitEvent(thread, origin, ThreadStateChanged(threads[thread].actual, ThreadState.Cancelled, []));
        if r.Err? {
          Rollback(before);
        }
      }
    }

    method ForkBranch(sub: ThreadUpdateSubmission, branch: Id, origin: Origin) returns (r: Result<()>)
      modifies `journal, `threads
      ensures Commits(ForkForUpdate(old(State()), sub, branch, origin), old(State()), State(), r)
    {
      hide Emit;
      if sub.forkedFrom.None? {
        return Ok(());
      }
      if sub.forkedFromEvent.None? || sub.baseRevision.None? || sub.reason.None? {
        return Err(ValueError);
      }
      var events, projections := journal, threads;
      r := EmitEvent(
        sub.threadId, origin,
        BranchForked(branch, sub.forkedFrom, sub.forkedFromEvent.value, sub.baseRevision.value, sub.reason.value));
      if r.Ok? {
        r := EmitEvent(sub.threadId, origin, BranchSelected(branch));
      }
      if r.Err? {
        journal, threads := events, projections;
      }
    }

    method CreateRun(thread: Id, creation: ThreadEvent, binding: ThreadEvent, origin: Origin) returns (r: Result<()>)
      requires creation.RunCreated?
      modifies `journal, `threads
      ensures Commits(CreateQueuedRun(old(State()), thread, creation, binding, origin), old(State()), State(), r)
    {
      hide Emit;
      var events, projections := journal, threads;
      r := EmitEvent(thread, origin, creation);
      if r.Ok? {
        r := EmitEvent(thread, origin.(actor := "context-compiler"), binding);
      }
      if r.Ok? {
        r := EmitEvent(
          thread, origin.(actor := "scheduler"),
          RunStateChanged(creation.runId, RunState.Created, RunState.Queued, [], None, None));
      }
      if r.Err? {
        journal, threads := events, projections;
      }
    }

    method ScheduleRun(sub: ThreadUpdateSubmission, branch: Id, origin: Origin) returns (r: Result<()>)
      requires Executable(sub) && sub.maxAttempts >= 1
      modifies `journal, `threads, `jobs
      ensures Commits(ScheduleNewRun(old(State()), sub, branch, origin), old(State()), State(), r)
    {
      hide CreateQueuedRun, Emit, InsertJob;
      var events, projections := journal, threads;
      var t, runId, scheduler := sub.threadId, sub.newRun.value, origin.(actor := "scheduler");
      r := CreateRun(
        t, RunCreated(runId, branch, sub.executorKey, sub.supersedes),
        SnapshotsBound(runId, sub.task.value, sub.agent.value, sub.context.value), origin);
      if r.Err? {
        return;
      }
      var from := if t in threads then threads[t].actual else ThreadState.Queued;
      r := EmitIf(
        t in threads && Requeued(from), t, scheduler, ThreadStateChanged(from, ThreadState.Queued, []));
      if r.Ok? {
        r := AddJob(NewJob(runId, t, sub.priority, sub.at, sub.maxAttempts, sub.executorKey, sub.at), scheduler);
      }
      if r.Err? {
        journal, threads := events, projections;
      }
    }

    method StartRun(sub: ThreadUpdateSubmission, origin: Origin) returns (r: Result<()>)
      modifies `journal, `threads, `jobs
      ensures Commits(StartNewRun(old(State()), sub, origin), old(State()), State(), r)
    {
      hide ForkForUpdate, ScheduleNewRun;
      if sub.threadId !in threads || !Executable(sub) || sub.maxAttempts < 1 {
        return Err(ValueError);
      }
      var events, projections := journal, threads;
      var branch := TargetBranch(sub, threads[sub.threadId].currentBranch);
      r := ForkBranch(sub, branch, origin);
      if r.Err? {
        return;
      }
      r := ScheduleRun(sub, branch, origin);
      if r.Err? {
        journal, threads := events, projections;
      }
    }

    /** `_apply_thread_update_in_transaction`. */
    method ApplyUpdate(sub: ThreadUpdateSubmission, runs: seq<Id>, rows: seq<Id>) returns (r: Result<()>)
      modifies `journal, `threads, `jobs, `intents, `approvals
      ensures Commits(ApplyThreadUpdate(old(State()), sub, runs, rows), old(State()), State(), r)
    {
      hide CancelForUpdate, Emit, StartNewRun;
      var checked := AdmitUpdate(State(), sub);
      if checked.Fail? {
        return Err(checked.error);
      }
      assert ApplyThreadUpdate(State(), sub, runs, rows) == AdmittedUpdate(State(), sub, runs, rows);
      r := ApplyAdmitted(sub, runs, rows);
    }

    method ApplyAdmitted(sub: ThreadUpdateSubmission, runs: seq<Id>, rows: seq<Id>) returns (r: Result<()>)
      requires sub.threadId in threads
      modifies `journal, `threads, `jobs, `intents, `approvals
      ensures Commits(AdmittedUpdate(old(State()), sub, runs, rows), old(State()), State(), r)
    {
      hide Emit, CancelThread, Superseding;
      var before, origin := State(), UpdateOrigin(sub);
      r := EmitEvent(
        sub.threadId, origin,
        MessageAppended(sub.messageKey, sub.message, sub.text, sub.kind, threads[sub.threadId].currentBranch, sub.task,
                        sub.context, sub.newRun));
      if r.Err? {
        return;
      }
      if sub.kind.Cancel? {
        r := CancelTask(sub.threadId, runs, rows, origin);
      } else {
        r := Supersede(sub, rows, origin);
      }
      if r.Err? {
        Rollback(before);
      }
    }

    method Supersede(sub: ThreadUpdateSubmission, rows: seq<Id>, origin: Origin) returns (r: Result<()>)
      modifies `journal, `threads, `jobs, `intents, `approvals
      ensures Commits(Superseding(old(State()), sub, rows, origin), old(State()), State(), r)
    {
      hide CancelForUpdate, StartNewRun, SupersededBy;
      var before := State();
      r := CancelRunsForUpdate(sub.threadId, sub.supersedesRuns, rows, SupersededBy(sub.kind), origin);
      if r.Err? {
        return;
      }
      r := StartRun(sub, origin);
      if r.Err? {
        Rollback(before);
      }
    }

    // -------------------------------------------------------------- steps

    /** `begin_claimed_step`. */
    method BeginStep(
      claim: WorkerClaim, stepId: Id, ordinal: nat, kind: StepKind, provider: string, version: string,
      inputs: seq<Artifact>, now: Time) returns (r: Result<()>)
      modifies `journal, `steps
      ensures Commits(
        BeginClaimedStep(old(State()), claim, stepId, ordinal, kind, provider, version, inputs, now), old(State()),
        State(), r)
    {
      hide Log, Live, NonBlank;
      if !NonBlank(provider) || !NonBlank(version) || ordinal < 1 {
        return Err(ValueError);
      }
      if !Live(State(), claim, now) {
        return Err(StaleLease);
      }
      if stepId in steps {
        var stored := steps[stepId];
        return if stored.threadId == claim.threadId && stored.runId == claim.runId && stored.ordinal == ordinal
                  && stored.kind == kind && stored.attempt == claim.attempt && stored.providerKey == Strip(provider)
                  && stored.providerVersion == Strip(version) && stored.inputs == inputs
          then Ok(()) else Err(IdempotencyConflict);
      }
      if claim.threadId !in threads {
        return Err(Error.NotFound);
      }
      if claim.runId !in threads[claim.threadId].runs || !threads[claim.threadId].runs[claim.runId].state.Running? {
        return Err(InvalidTransition);
      }
      if SlotTaken(State(), claim.runId, ordinal, claim.attempt) {
        return Err(IntegrityError);
      }
      var origin := Origin(claim.worker, now, None);
      LogEvent(StepStream(stepId), Some(claim.threadId), origin, StepCreated);
      LogEvent(StepStream(stepId), Some(claim.threadId), origin, StepStarted);
      LogKeepsTables(old(State()), StepStream(stepId), Some(claim.threadId), origin, StepCreated);
      steps := steps[stepId := StepRecord(
        stepId, claim.threadId, claim.runId, ordinal, kind, StepState.Running, claim.attempt, Strip(provider),
        Strip(version), inputs, [], None, None)];
      return Ok(());
    }

    /** `finish_claimed_step`. */
    method FinishStep(
      claim: WorkerClaim, stepId: Id, outputs: seq<Artifact>, verifierResult: Option<Artifact>,
      errorCode: Option<string>, now: Time) returns (r: Result<()>)
      modifies `journal, `steps
      ensures Commits(
        FinishClaimedStep(old(State()), claim, stepId, outputs, verifierResult, errorCode, now), old(State()),
            State(), r)
    {
      hide Log, Live;
      if !Live(State(), claim, now) {
        return Err(StaleLease);
      }
      if stepId !in steps {
        return Err(Error.NotFound);
      }
      var row := steps[stepId];
      if row.threadId != claim.threadId || row.runId != claim.runId || !row.state.Running? {
        return Err(InvalidTransition);
      }
      if claim.threadId !in threads || claim.runId !in threads[claim.threadId].runs {
        return Err(Error.NotFound);
      }
      var origin, thread := Origin(claim.worker, now, None), Some(claim.threadId);
      if outputs != [] {
        LogEvent(StepStream(stepId), thread, origin, StepOutputs);
        LogKeepsTables(old(State()), StepStream(stepId), thread, origin, StepOutputs);
      }
      LogEvent(StepStream(stepId), thread, origin, StepEnded(errorCode.None?));
      steps := steps[stepId := row.(
        state := if errorCode.None? then StepState.Succeeded else StepState.Failed,
        outputs := outputs, verifierResult := verifierResult, errorCode := errorCode)];
      return Ok(());
    }

    // -------------------------------------------------------------- the inbox

    /** ROLLBACK of everything an inbox transaction writes. */
    method RollbackInbox(s: Store)
      requires State() == s.(
        journal := journal, threads := threads, jobs := jobs, intents := intents, approvals := approvals,
        inbox := inbox)
      modifies `journal, `threads, `jobs, `intents, `approvals, `inbox
      ensures State() == s
    {
      inbox := s.inbox;
      Rollback(s);
    }

    method Effect(
      task: Option<TaskSubmission>, update: Option<ThreadUpdateSubmission>, ids: seq<Id>, rows: seq<Id>, now: Time)
      returns (r: Result<()>)
      modifies `journal, `threads, `jobs, `intents, `approvals
      ensures Commits(ApplyEffect(old(State()), task, update, ids, rows, now), old(State()), State(), r)
    {
      hide SubmitTask, ApplyThreadUpdate;
      var before := State();
      if task.Some? {
        r := Submit(task.value, now);
        if r.Err? {
          return;
        }
      }
      r := Ok(());
      if update.Some? {
        r := ApplyUpdate(update.value, ids, rows);
        if r.Err? {
          Rollback(before);
        }
      }
    }

    /** The events of a first acceptance. */
    method LogFirst(record: InboxRecord)
      modifies `journal
      ensures State() == LogAcceptance(old(State()), record)
    {
      hide Log;
      var chat := ConversationStream(record.platform, record.chatId);
      var key, at := record.messageKey, record.createdAt;
      var sender := Origin(record.actorId, at, Some(key));
      LogEvent(chat, None, sender, MessageReceived(key));
      LogEvent(InboxStream(key), record.threadId, Origin("inbox-router", at, Some(key)),
               OfInbox(RouteProposed(record.routeType, record.routeState)));
      if record.routeState.Confirmed? {
        LogEvent(InboxStream(key), record.threadId, Origin("inbox-policy", at, Some(key)),
                 OfInbox(RouteConfirmed(record.routeType)));
      }
      if record.routeType.Chat? {
        LogEvent(chat, None, sender, ConversationAppended(key));
      }
    }

    /** `accept_inbox_route`: the record and its effect are stored together or not at all. */
    method AcceptRoute(
      record: InboxRecord, task: Option<TaskSubmission>, update: Option<ThreadUpdateSubmission>, ids: seq<Id>,
      rows: seq<Id>, now: Time) returns (r: Result<()>)
      modifies `journal, `threads, `jobs, `intents, `approvals, `inbox
      ensures Commits(
        AcceptInboxRoute(old(State()), record, task, update, ids, rows, now), old(State()), State(), r)
    {
      hide ApplyEffect, LogAcceptance, ValidAcceptance, SameInbound;
      if !ValidAcceptance(record, task, update) {
        return Err(ValueError);
      }
      if record.messageKey in inbox {
        return if SameInbound(record, inbox[record.messageKey]) then Ok(()) else Err(IdempotencyConflict);
      }
      var before := State();
      LogFirst(record);
      inbox := inbox[record.messageKey := record];
      r := Effect(task, update, ids, rows, now);
      if r.Err? {
        RollbackInbox(before);
      }
    }

    /** `resolve_inbox_route`. */
    method Resolve(
      record: InboxRecord, resolver: string, reason: string, task: Option<TaskSubmission>,
      update: Option<ThreadUpdateSubmission>, ids: seq<Id>, rows: seq<Id>) returns (r: Result<()>)
      modifies `journal, `threads, `jobs, `intents, `approvals, `inbox
      ensures Commits(
        ResolveInboxRoute(old(State()), record, resolver, reason, task, update, ids, rows), old(State()), State(), r)
    {
      hide ApplyEffect, Log, ValidResolution, SameInbound, SameResolution, Resolved;
      var key := record.messageKey;
      if !ValidResolution(record, resolver, reason, task, update) {
        return Err(ValueError);
      }
      if key !in inbox {
        return Err(Error.NotFound);
      }
      var stored := inbox[key];
      if !SameInbound(record, stored) {
        return Err(IdempotencyConflict);
      }
      if resolver != stored.platform + ":" + stored.actorId {
        return Err(PermissionError);
      }
      if record.projectId != stored.projectId || record.message != stored.message {
        return Err(IdempotencyConflict);
      }
      if !stored.routeState.Proposed? {
        return if SameResolution(stored, record) then Ok(()) else Err(ConcurrencyConflict);
      }
      var before, origin := State(), Origin(resolver, record.updatedAt, Some(key));
      LogEvent(InboxStream(key), record.threadId, origin, OfInbox(RouteResolved(record.routeType, record.routeState)));
      LogKeepsTables(before, InboxStream(key), record.threadId, origin,
               OfInbox(RouteResolved(record.routeType, record.routeState)));
      inbox := inbox[key := Resolved(stored, record, resolver, reason)];
      r := Effect(task, update, ids, rows, record.updatedAt);
      if r.Err? {
        RollbackInbox(before);
      }
    }

    // -------------------------------------------------------------- approvals

    /** The loop of `expire_pending_approvals` over the approvals that are due. */
    method ExpireDue(now: Time, rows: seq<Id>)
      modifies `journal, `intents, `approvals
      ensures State() == ExpireRows(old(State()), now, rows)
    {
      hide WriteApproval, DropIntent;
      ghost var before := State();
      for i := 0 to |rows|
        invariant State() == ExpireRows(before, now, rows[..i])
      {
        assert rows[..i + 1][..i] == rows[..i];
        var a := rows[i];
        if Due(State(), a, now) {
          var row := approvals[a];
          PutApproval(row.(status := ApprovalState.Expired, updatedAt := now), Origin("approval-gate", now, None),
                      ApprovalExpired(row.intentId));
          ExpiredKeeps(before, rows[..i], now, a);
          intents := DropIntent(intents, row.intentId, EXPIRED, now);
        }
      }
      assert rows[..|rows|] == rows;
    }

    /** `_set_thread_attention_in_transaction`. */
    method PutAttention(thread: Id, target: AttentionState, origin: Origin) returns (r: Result<()>)
      modifies `journal, `threads
      ensures Commits(SetAttention(old(State()), thread, target, origin), old(State()), State(), r)
    {
      hide Emit;
      if thread !in threads {
        return Err(Error.NotFound);
      }
      r := EmitIf(threads[thread].attention != target, thread, origin, AttentionChanged(target));
    }

    method CalmAttention(thread: Id, now: Time) returns (r: Result<()>)
      modifies `journal, `threads
      ensures Commits(ClearAttention(old(State()), thread, now), old(State()), State(), r)
    {
      hide SetAttention, NothingPending;
      if NothingPending(State(), thread) {
        r := PutAttention(thread, AttentionState.Calm, Origin("approval-gate", now, None));
      } else {
        r := Ok(());
      }
    }

    /** `create_approval`. */
    method RequestApproval(
      intentId: Id, riskLevel: string, requestedBy: string, reason: string, ttl: int, policy: Option<Artifact>,
      approvalId: Id, now: Time) returns (r: Result<()>)
      modifies `journal, `threads, `approvals, `approvalOf
      ensures Commits(
        CreateApproval(old(State()), intentId, riskLevel, requestedBy, reason, ttl, policy, approvalId, now),
        old(State()), State(), r)
    {
      hide SetAttention, OpenApproval;
      if ttl < 1 {
        return Err(ValueError);
      }
      if intentId !in intents {
        return Err(Error.NotFound);
      }
      if !intents[intentId].requiresApproval {
        return Err(InvalidTransition);
      }
      if intentId in approvalOf && approvalOf[intentId] in approvals {
        var stored := approvals[approvalOf[intentId]];
        return if stored.riskLevel == riskLevel && stored.requestedBy == requestedBy && stored.reason == reason
                  && stored.policy == policy then Ok(()) else Err(IdempotencyConflict);
      }
      if approvalId in approvals {
        return Err(IntegrityError);
      }
      r := OpenRequest(
        ApprovalRequest(approvalId, intentId, ApprovalState.Pending, riskLevel, requestedBy, reason, policy, now,
                        now + ttl, now, None, None), now);
    }

    method OpenRequest(approval: ApprovalRequest, now: Time) returns (r: Result<()>)
      requires approval.intentId in intents
      modifies `journal, `threads, `approvals, `approvalOf
      ensures Commits(
        SetAttention(
          OpenApproval(old(State()), approval, Origin(approval.requestedBy, now, None)),
          old(intents[approval.intentId].threadId), AttentionState.NeedsApproval, Origin("approval-gate", now, None)),
        old(State()), State(), r)
    {
      hide SetAttention;
      var events, rows, index := journal, approvals, approvalOf;
      LogEvent(ApprovalStream(approval.approvalId), Some(intents[approval.intentId].threadId),
               Origin(approval.requestedBy, now, None), OfApproval(ApprovalRequested(approval.intentId)));
      approvals := approvals[approval.approvalId := approval];
      approvalOf := approvalOf[approval.intentId := approval.approvalId];
      r := PutAttention(
        intents[approval.intentId].threadId, AttentionState.NeedsApproval, Origin("approval-gate", now, None));
      if r.Err? {
        journal, approvals, approvalOf := events, rows, index;
      }
    }

    /** The transaction of `decide_approval` that records the decision. */
    method Decide(approvalId: Id, decision: ApprovalState, actor: string, evidence: Option<Artifact>, now: Time)
      returns (r: Result<()>)
      modifies `journal, `threads, `intents, `approvals
      ensures Commits(
        DecideApproval(old(State()), approvalId, decision, actor, evidence, now), old(State()), State(), r)
    {
      hide ClearAttention, RecordDecision;
      if !decision.Approved? && !decision.Denied? {
        return Err(ValueError);
      }
      if approvalId !in approvals {
        return Err(Error.NotFound);
      }
      var row := approvals[approvalId];
      if row.status == decision {
        return Ok(());
      }
      if !row.status.Pending? {
        return Err(InvalidTransition);
      }
      if row.intentId !in intents {
        return Err(Error.NotFound);
      }
      r := DecideAndCalm(approvalId, decision, actor, evidence, intents[row.intentId].threadId, now);
    }

    /** `decide_approval` as a whole: first everything that is due at `due` expires, in a transaction of its
        own, and then the decision is recorded, so that a decision that comes too late is refused. */
    method ExpireAndDecide(
      approvalId: Id, decision: ApprovalState, actor: string, evidence: Option<Artifact>, rows: seq<Id>,
      affected: seq<Id>, due: Time, now: Time) returns (r: Result<()>)
      modifies `journal, `threads, `intents, `approvals
      ensures CommitsAfter(
        ExpirePendingApprovals(old(State()), due, rows, affected),
        s => DecideApproval(s, approvalId, decision, actor, evidence, now), old(State()), State(), r)
    {
      hide ExpirePendingApprovals, DecideApproval;
      r := ExpireApprovals(due, rows, affected);
      if r.Ok? {
        r := Decide(approvalId, decision, actor, evidence, now);
      }
    }

    method DecideAndCalm(
      approvalId: Id, decision: ApprovalState, actor: string, evidence: Option<Artifact>, thread: Id, now: Time)
      returns (r: Result<()>)
      requires approvalId in approvals
      modifies `journal, `threads, `intents, `approvals
      ensures Commits(
        ClearAttention(RecordDecision(old(State()), approvalId, decision, actor, evidence, now), thread, now),
        old(State()), State(), r)
    {
      hide ClearAttention, RecordDecision;
      var events, waiting, asked := journal, intents, approvals;
      PutDecision(approvalId, decision, actor, evidence, now);
      r := CalmAttention(thread, now);
      if r.Err? {
        journal, intents, approvals := events, waiting, asked;
      }
    }

    method PutDecision(approvalId: Id, decision: ApprovalState, actor: string, evidence: Option<Artifact>, now: Time)
      requires approvalId in approvals
      modifies `journal, `intents, `approvals
      ensures State() == RecordDecision(old(State()), approvalId, decision, actor, evidence, now)
    {
      hide DropIntent, WriteApproval;
      var row := approvals[approvalId];
      PutApproval(
        row.(status := decision, updatedAt := now, resolvedBy := Some(actor), evidence := evidence),
        Origin(actor, now, None), ApprovalDecided(row.intentId, decision));
      if decision.Denied? {
        intents := DropIntent(intents, row.intentId, DENIED, now);
      }
    }

    method CalmThreads(now: Time, affected: seq<Id>) returns (r: Result<()>)
      modifies `journal, `threads
      ensures Commits(ClearAll(old(State()), now, affected), old(State()), State(), r)
    {
      hide ClearAttention;
      var events, projections := journal, threads;
      ghost var before := State();
      for i := 0 to |affected|
        invariant ClearAll(before, now, affected[..i]) == Ok(State())
      {
        assert affected[..i + 1][..i] == affected[..i];
        r := CalmAttention(affected[i], now);
        if r.Err? {
          assert affected[..i + 1] + affected[i + 1..] == affected;
          ClearAllFails(before, now, affected[..i + 1], affected[i + 1..]);
          journal, threads := events, projections;
          return;
        }
      }
      assert affected[..|affected|] == affected;
      return Ok(());
    }

    /** `expire_pending_approvals`. */
    method ExpireApprovals(now: Time, rows: seq<Id>, affected: seq<Id>) returns (r: Result<()>)
      modifies `journal, `threads, `intents, `approvals
      ensures Commits(ExpirePendingApprovals(old(State()), now, rows, affected), old(State()), State(), r)
    {
      hide ExpireRows, ClearAll;
      var events, waiting, asked := journal, intents, approvals;
      ExpireDue(now, rows);
      r := CalmThreads(now, affected);
      if r.Err? {
        journal, intents, approvals := events, waiting, asked;
      }
    }

    // -------------------------------------------------------------- actions

    /** `create_action_intent`. */
    method CreateIntent(
      thread: Id, runId: Id, capability: string, request: Artifact, key: string, requiresApproval: bool,
      intentId: Id, origin: Origin) returns (r: Result<()>)
      modifies `journal, `intents, `intentByKey
      ensures Commits(
        CreateActionIntent(old(State()), thread, runId, capability, request, key, requiresApproval, intentId, origin),
        old(State()), State(), r)
    {
      hide StoreIntent, NonBlank, Terminal;
      if !NonBlank(key) {
        return Err(ValueError);
      }
      if thread !in threads || runId !in threads[thread].runs {
        return Err(Error.NotFound);
      }
      if Terminal(threads[thread].runs[runId].state) {
        return Err(InvalidTransition);
      }
      r := AddIntent(
        ActionIntent(intentId, key, thread, runId, capability, request, requiresApproval, ActionStatus.Pending, None,
                     0, None, origin.at, origin.at), origin);
    }

    /** Reuses the intent stored under the key, or inserts one. */
    method AddIntent(intent: ActionIntent, origin: Origin) returns (r: Result<()>)
      modifies `journal, `intents, `intentByKey
      ensures Commits(StoreIntent(old(State()), intent, origin), old(State()), State(), r)
    {
      hide WriteIntent, SameRequest;
      var key := intent.idempotencyKey;
      if key in intentByKey && intentByKey[key] in intents {
        return if SameRequest(intents[intentByKey[key]], intent) then Ok(()) else Err(IdempotencyConflict);
      }
      if intent.intentId in intents {
        return Err(IntegrityError);
      }
      PutIntent(intent, origin, IntentCreated(intent.requiresApproval));
      intentByKey := intentByKey[key := intent.intentId];
      return Ok(());
    }

    /** `record_action_receipt`. */
    method RecordOutcome(
      claim: ActionClaim, outcome: ReceiptOutcome, provider: string, response: Option<Artifact>, receiptId: Id,
      now: Time) returns (r: Result<()>)
      modifies `journal, `intents, `receipts
      ensures Commits(
        RecordReceipt(old(State()), claim, outcome, provider, response, receiptId, now), old(State()), State(), r)
    {
      hide WriteIntent, NonBlank, AfterReceipt;
      if !NonBlank(provider) {
        return Err(ValueError);
      }
      var stored := FindReceipt(receiptId, claim.intentId, outcome, provider, response);
      if stored.Some? {
        return if stored.value then Ok(()) else Err(IdempotencyConflict);
      }
      if !LiveAction(State(), claim, now) {
        return Err(StaleLease);
      }
      var row, next := intents[claim.intentId], AfterReceipt(outcome);
      var settled := row.(
        status := next, lease := None, updatedAt := now,
        lastError := if next.ReconcileRequired? then Some("receipt was inconclusive") else None);
      var receipt := ActionReceipt(receiptId, claim.intentId, outcome, provider, response, now);
      var origin, event := Origin(claim.worker, now, None), ReceiptRecorded(receiptId, outcome, next, claim.token);
      assert RecordReceipt(State(), claim, outcome, provider, response, receiptId, now)
          == Ok(WriteIntent(State(), settled, origin, event).(receipts := receipts + [receipt]));
      hide RecordReceipt;
      StoreReceipt(settled, receipt, origin, event);
      return Ok(());
    }

    method StoreReceipt(intent: ActionIntent, receipt: ActionReceipt, origin: Origin, event: ActionEvent)
      modifies `journal, `intents, `receipts
      ensures State() == WriteIntent(old(State()), intent, origin, event).(receipts := old(receipts) + [receipt])
    {
      hide WriteIntent;
      PutIntent(intent, origin, event);
      receipts := receipts + [receipt];
    }

    /** Looks the receipt up and says whether the stored one is the same. */
    method FindReceipt(
      receiptId: Id, intentId: Id, outcome: ReceiptOutcome, provider: string, response: Option<Artifact>)
      returns (same: Option<bool>)
      ensures same.Some? <==> HasReceipt(receipts, receiptId)
      ensures same == Some(true) <==>
        exists i :: 0 <= i < |receipts| && receipts[i].receiptId == receiptId && receipts[i].intentId == intentId
          && receipts[i].outcome == outcome && receipts[i].provider == provider && receipts[i].response == response
    {
      same := None;
      for i := 0 to |receipts|
        invariant same.Some? <==> exists k :: 0 <= k < i && receipts[k].receiptId == receiptId
        invariant same == Some(true) <==>
          exists k :: 0 <= k < i && receipts[k].receiptId == receiptId && receipts[k].intentId == intentId
            && receipts[k].outcome == outcome && receipts[k].provider == provider && receipts[k].response == response
      {
        var row := receipts[i];
        if row.receiptId == receiptId {
          same := Some(
            same == Some(true)
            || (row.intentId == intentId && row.outcome == outcome && row.provider == provider
                && row.response == response));
        }
      }
    }

    /** `recover_incomplete_actions`. */
    method RecoverActions(now: Time, rows: seq<Id>)
      modifies `journal, `intents
      ensures State() == RecoverIncomplete(old(State()), now, rows)
    {
      hide WriteIntent, MarkReconcile;
      ghost var before := State();
      for i := 0 to |rows|
        invariant State() == RecoverIncomplete(before, now, rows[..i])
      {
        assert rows[..i + 1][..i] == rows[..i];
        var x := rows[i];
        if x in intents && ActionLapsed(intents[x], now) {
          MarkIntent(x, now);
        }
      }
      assert rows[..|rows|] == rows;
    }

    /** `_mark_action_reconcile_required`. */
    method MarkIntent(intentId: Id, now: Time)
      requires intentId in intents
      modifies `journal, `intents
      ensures State() == MarkReconcile(old(State()), intentId, now)
    {
      hide WriteIntent;
      var row := intents[intentId];
      PutIntent(
        row.(status := ActionStatus.ReconcileRequired, lease := None,
             lastError := Some("action lease expired before a durable receipt"), updatedAt := now),
        Origin("recovery", now, None), ActionEvent.ReconciliationRequired(row.status, row.token));
    }

    /** `claim_action`: a lapse noticed on the way is undone when the claim is refused. */
    method TakeIntent(intentId: Id, worker: string, leaseId: string, seconds: int, reconciling: bool, now: Time)
      returns (r: Result<()>)
      modifies `journal, `intents
      ensures Commits(
        ClaimAction(old(State()), intentId, worker, leaseId, seconds, reconciling, now), old(State()), State(), r)
    {
      hide MarkReconcile, WriteIntent, IsApproved;
      if seconds < 1 {
        return Err(ValueError);
      }
      if intentId !in intents {
        return Err(Error.NotFound);
      }
      var events, rows := journal, intents;
      if ActionLapsed(intents[intentId], now) {
        MarkIntent(intentId, now);
      }
      r := GrantIntent(intentId, Lease(worker, leaseId, now + seconds), reconciling, now);
      if r.Err? {
        journal, intents := events, rows;
      }
    }

    /** `claim_action` as a whole: before an execution claim, at `due`, everything that is due expires in a
        transaction of its own, which stays committed when the claim is refused. */
    method ExpireAndTake(
      intentId: Id, worker: string, leaseId: string, seconds: int, reconciling: bool, rows: seq<Id>,
      affected: seq<Id>, due: Time, now: Time) returns (r: Result<()>)
      modifies `journal, `threads, `intents, `approvals
      ensures seconds < 1 ==> State() == old(State()) && r == Err(ValueError)
      ensures seconds >= 1 ==>
        CommitsAfter(
          if reconciling then Ok(old(State())) else ExpirePendingApprovals(old(State()), due, rows, affected),
          s => ClaimAction(s, intentId, worker, leaseId, seconds, reconciling, now), old(State()), State(), r)
    {
      hide ExpirePendingApprovals, ClaimAction;
      if seconds < 1 {
        return Err(ValueError);
      }
      if !reconciling {
        r := ExpireApprovals(due, rows, affected);
        if r.Err? {
          return;
        }
      }
      r := TakeIntent(intentId, worker, leaseId, seconds, reconciling, now);
    }

    method GrantIntent(intentId: Id, lease: Lease, reconciling: bool, now: Time) returns (r: Result<()>)
      modifies `journal, `intents
      ensures Commits(TakeAction(old(State()), intentId, lease, reconciling, now), old(State()), State(), r)
    {
      hide WriteIntent;
      if intentId !in intents {
        return Err(Error.NotFound);
      }
      if !reconciling && intents[intentId].requiresApproval && !IsApproved(State(), intentId) {
        return Err(InvalidTransition);
      }
      var row := intents[intentId];
      if row.status != (if reconciling then ActionStatus.ReconcileRequired else ActionStatus.Pending) {
        return Err(if row.status.ReconcileRequired? then Error.ReconciliationRequired else InvalidTransition);
      }
      var next := Taken(row, if reconciling then ActionStatus.Recovering else ActionStatus.Executing, lease, now);
      PutIntent(
        next, Origin(lease.owner, now, None),
        if reconciling then ReconciliationClaimed(lease.leaseId, next.token, lease.expiresAt)
        else ExecutionClaimed(lease.leaseId, next.token, lease.expiresAt));
      return Ok(());
    }

    // -------------------------------------------------------------- resources

    method PutLease(row: ResourceLease, origin: Origin, event: ResourceEvent)
      modifies `journal, `leases
      ensures State() == WriteLease(old(State()), row, origin, event)
    {
      leases := leases[row.leaseId := row];
      var _ := InsertEvent(DraftOf(ResourceStream(row.resourceKey), Some(row.threadId), origin, OfResource(event)));
    }

    /** `_expire_resource_leases`. */
    method SweepLeases(key: string, now: Time, rows: seq<string>)
      modifies `journal, `leases
      ensures State() == ExpireLeases(old(State()), key, now, rows)
    {
      hide WriteLease;
      ghost var before := State();
      for i := 0 to |rows|
        invariant State() == ExpireLeases(before, key, now, rows[..i])
      {
        assert rows[..i + 1][..i] == rows[..i];
        var l := rows[i];
        if l in leases && Overdue(leases[l], key, now) {
          PutLease(leases[l].(status := LeaseStatus.Expired), Origin("resource-coordinator", now, None),
                   LeaseExpired(l, leases[l].token));
        }
      }
      assert rows[..|rows|] == rows;
    }

    /** `acquire_resource`: a refused request also undoes its sweep. */
    method Acquire(
      key: string, mode: AccessMode, owner: Id, thread: Id, seconds: int, actor: string, leaseId: string,
      rows: seq<string>, now: Time) returns (r: Result<()>)
      modifies `journal, `leases, `fences
      ensures Commits(
        AcquireResource(old(State()), key, mode, owner, thread, seconds, actor, leaseId, rows, now), old(State()),
        State(), r)
    {
      hide ExpireLeases, GrantLease, Contended;
      if seconds < 1 {
        return Err(ValueError);
      }
      var events, held := journal, leases;
      SweepLeases(key, now, rows);
      SweptKeeps(old(State()), key, now, rows);
      if Contended(State(), key, mode, now) || leaseId in leases {
        r := Err(if Contended(State(), key, mode, now) then Error.ResourceConflict else IntegrityError);
        journal, leases := events, held;
        return;
      }
      var row := ResourceLease(
        leaseId, key, mode, owner, thread, LastToken(State(), key) + 1, now, now + seconds, LeaseStatus.Active);
      PutGrant(row, Origin(actor, now, None));
      return Ok(());
    }

    method PutGrant(row: ResourceLease, origin: Origin)
      modifies `journal, `leases, `fences
      ensures State() == GrantLease(old(State()), row, origin)
    {
      hide WriteLease;
      PutLease(row, origin, LeaseAcquired(row.leaseId, row.mode, row.token, row.expiresAt));
      fences := fences[row.resourceKey := row.token];
    }

    /** `renew_resource`. */
    method Renew(lease: ResourceLease, seconds: int, actor: string, now: Time) returns (r: Result<()>)
      modifies `journal, `leases
      ensures Commits(RenewResource(old(State()), lease, seconds, actor, now), old(State()), State(), r)
    {
      hide WriteLease;
      if !LiveResource(State(), lease, now) {
        return Err(StaleLease);
      }
      PutLease(leases[lease.leaseId].(expiresAt := now + seconds), Origin(actor, now, None),
               LeaseRenewed(lease.leaseId, lease.token, now + seconds));
      return Ok(());
    }

    /** `release_resource`. */
    method Release(lease: ResourceLease, actor: string, now: Time) returns (r: Result<()>)
      modifies `journal, `leases
      ensures Commits(ReleaseResource(old(State()), lease, actor, now), old(State()), State(), r)
    {
      hide WriteLease;
      if !LiveResource(State(), lease, now) {
        return Err(StaleLease);
      }
      PutLease(leases[lease.leaseId].(status := LeaseStatus.Released), Origin(actor, now, None),
               LeaseReleased(lease.leaseId, lease.token));
      return Ok(());
    }
  }

  /** A walk that fails at its i-th Thread fails as a whole, with the same error. */
  lemma {:induction false} ClearAllFails(s: Store, now: Time, first: seq<Id>, rest: seq<Id>)
    requires ClearAll(s, now, first).Err?
    ensures ClearAll(s, now, first + rest) == ClearAll(s, now, first)
    decreases |rest|
  {
    hide ClearAttention;
    if rest == [] {
      assert first + rest == first;
    } else {
      assert (first + rest)[..|first + rest| - 1] == first + rest[..|rest| - 1];
      ClearAllFails(s, now, first, rest[..|rest| - 1]);
    }
  }

  lemma {:induction false} SweptKeeps(s: Store, key: string, now: Time, rows: seq<string>)
    ensures var t := ExpireLeases(s, key, now, rows); t == s.(journal := t.journal, leases := t.leases)
    decreases |rows|
  {
    hide Insert;
    if rows != [] {
      SweptKeeps(s, key, now, rows[..|rows| - 1]);
    }
  }

  lemma {:induction false} ExpiredKeeps(s: Store, rows: seq<Id>, now: Time, a: Id)
    ensures var t := ExpireRows(s, now, rows);
      t == s.(journal := t.journal, intents := t.intents, approvals := t.approvals)
    decreases |rows|
  {
    hide Insert, DropIntent;
    if rows != [] {
      ExpiredKeeps(s, rows[..|rows| - 1], now, a);
    }
  }

  lemma {:induction false} CancelRunsFail(
    s: Store, thread: Id, first: seq<Id>, rest: seq<Id>, rows: seq<Id>, reason: string, origin: Origin)
    requires CancelRuns(s, thread, first, rows, reason, origin).Err?
    ensures CancelRuns(s, thread, first + rest, rows, reason, origin)
         == CancelRuns(s, thread, first, rows, reason, origin)
    decreases |rest|
  {
    hide CancelRun;
    if rest == [] {
      assert first + rest == first;
    } else {
      assert (first + rest)[..|first + rest| - 1] == first + rest[..|rest| - 1];
      CancelRunsFail(s, thread, first, rest[..|rest| - 1], rows, reason, origin);
    }
  }

  /** A batch that fails at its i-th draft fails as a whole, with the same error. */
  lemma {:induction false} BatchFails(s: Store, thread: Id, first: seq<Draft>, rest: seq<Draft>)
    requires EmitDrafts(s, thread, first).Err?
    ensures EmitDrafts(s, thread, first + rest) == EmitDrafts(s, thread, first)
    decreases |rest|
  {
    hide EmitDraft;
    if rest == [] {
      assert first + rest == first;
    } else {
      assert (first + rest)[..|first + rest| - 1] == first + rest[..|rest| - 1];
      BatchFails(s, thread, first, rest[..|rest| - 1]);
    }
  }

  lemma {:induction false} ReplayFails(first: seq<Event>, rest: seq<Event>, thread: Id)
    requires Replay(first, thread).Err?
    ensures Replay(first + rest, thread) == Replay(first, thread)
    decreases |rest|
  {
    hide Reduce;
    if rest == [] {
      assert first + rest == first;
    } else {
      assert (first + rest)[..|first + rest| - 1] == first + rest[..|rest| - 1];
      ReplayFails(first, rest[..|rest| - 1], thread);
    }
  }

  lemma {:induction false} SweepKeepsRows(s: Store, now: Time, rows: seq<Id>)
    ensures Sweep(s, now, rows).jobs.Keys == s.jobs.Keys
    decreases |rows|
  {
    if rows != [] {
      SweepKeepsRows(s, now, rows[..|rows| - 1]);
    }
  }

  // =========================================================================== the runtime
  // The runtime as its callers see it: one repository object, called by workers, coordinators, the
  // gateway and the lease holders in any order.

  /** `InboxCoordinator`: prepares what a message asks for and stores it through the repository. */
  class InboxCoordinator {
    const repository: RuntimeRepository

    constructor (repository: RuntimeRepository)
      ensures this.repository == repository
    {
      this.repository := repository;
    }

    /** `accept`; `seen` is the target Thread as it was read, `ids` its Runs. */
    method AcceptMessage(
      message: InboxMessage, route: InboxRoute, project: string, agent: Artifact, seen: Option<ThreadProjection>,
      ids: seq<Id>, rows: seq<Id>, now: Time) returns (r: Result<()>)
      modifies repository
      ensures Commits(
        Accept(old(repository.State()), message, route, project, agent, seen, ids, rows, now),
        old(repository.State()), repository.State(), r)
    {
      hide AcceptInboxRoute, PrepareTask, PrepareUpdate, SameInbound, NewRecord;
      var record := NewRecord(message, route, project);
      if record.messageKey in repository.inbox {
        return if SameInbound(record, repository.inbox[record.messageKey]) then Ok(()) else Err(IdempotencyConflict);
      }
      if route.routeType.NewTask? {
        var task := PrepareTask(record, OrElse(route.taskText, Strip(message.text)), agent);
        if task.Err? {
          return Err(task.error);
        }
        r := repository.AcceptRoute(record, Some(task.value), None, ids, rows, now);
      } else if route.routeType.ThreadUpdate? && record.routeState.Confirmed? {
        var kind := if route.updateKind.Some? then route.updateKind.value else UpdateKind.Supplement;
        var update := PrepareUpdate(seen, ids, record, route.taskText, kind, agent, message.createdAt);
        if update.Err? {
          return Err(update.error);
        }
        r := repository.AcceptRoute(record, None, Some(update.value), ids, rows, now);
      } else {
        r := repository.AcceptRoute(record, None, None, ids, rows, now);
      }
    }

    /** `resolve_route` on the record as it was read. */
    method ResolveRecord(
      stored: InboxRecord, platform: string, actor: string, decision: Decision, target: Option<Id>,
      kind: Option<UpdateKind>, reason: string, agent: Artifact, seen: Option<ThreadProjection>, ids: seq<Id>,
      rows: seq<Id>, now: Time) returns (r: Result<()>)
      modifies repository
      ensures Commits(
        ResolveRoute(old(repository.State()), stored, platform, actor, decision, target, kind, reason, agent, seen,
                     ids, rows, now),
        old(repository.State()), repository.State(), r)
    {
      hide ResolveInboxRoute, PrepareTask, PrepareUpdate, SameDecision, KindOf;
      if stored.platform != platform || stored.actorId != actor {
        return Err(PermissionError);
      }
      if !stored.routeState.Proposed? {
        return if SameDecision(stored, decision, target, kind) then Ok(()) else Err(IdempotencyConflict);
      }
      var resolver := platform + ":" + actor;
      var open := stored.(
        requiresConfirmation := false, updatedAt := now, resolvedBy := Some(resolver),
        resolutionReason := Some(reason));
      match decision {
        case Expire =>
          r := repository.Resolve(
            open.(routeState := RouteState.Expired), resolver, reason, None, None, ids, rows);
        case AsNewTask =>
          var record := open.(
            routeType := RouteType.NewTask, routeState := RouteState.Corrected,
            threadId := Some(ThreadOf(stored.messageKey)), updateKind := None);
          var task := PrepareTask(record, TextOf(stored.text), agent);
          if task.Err? {
            return Err(task.error);
          }
          r := repository.Resolve(record, resolver, reason, Some(task.value), None, ids, rows);
        case ToThread =>
          if target.None? {
            return Err(ValueError);
          }
          var chosen := KindOf(kind, stored.updateKind);
          var record := open.(
            routeType := RouteType.ThreadUpdate, routeState := RouteState.Corrected, threadId := target,
            updateKind := Some(chosen));
          var update := PrepareUpdate(seen, ids, record, TextOf(stored.text), chosen, agent, now);
          if update.Err? {
            return Err(update.error);
          }
          r := repository.Resolve(record, resolver, reason, None, Some(update.value), ids, rows);
      }
    }
  }

  /** The claim query settles which row is taken; every other call is as it was made. */
  ghost predicate SameCall(asked: WorkStep, done: WorkStep) {
    if asked.Claim? then done.Claim? && done == asked.(pick := done.pick) else done == asked
  }

  method CallWork(repository: RuntimeRepository, step: WorkStep, order: seq<Id>)
    returns (r: Result<()>, ghost done: WorkStep)
    requires forall x :: x in repository.jobs ==> x in order
    modifies repository
    ensures SameCall(step, done)
    ensures Answered(old(repository.State()), done)
    ensures Commits(ApplyWork(old(repository.State()), done), old(repository.State()), repository.State(), r)
  {
    hide Picks, Sweep, ClaimNextRun, StartClaimedRun, HeartbeatRun, RecordClaimedCheckpoint, FinishClaimedExecution,
      BeginClaimedStep, FinishClaimedStep, FinalizeDelivery;
    var now := repository.clock;
    done := step;
    match step {
      case Claim(worker, leaseId, seconds, keys, rows, _) =>
        var claimed, pick := repository.ClaimNext(worker, leaseId, seconds, keys, rows, order, now);
        done := step.(pick := pick);
        r := if claimed.Ok? then Ok(()) else Err(claimed.error);
      case Start(claim) => r := repository.Start(claim, now);
      case Heartbeat(claim, seconds) => r := repository.Heartbeat(claim, seconds, now);
      case Checkpoint(claim, checkpoint) => r := repository.SaveCheckpoint(claim, checkpoint, now);
      case Finish(claim, executorKey, version, outcome) =>
        r := repository.FinishExecution(claim, executorKey, version, outcome, now);
      case BeginStep(claim, stepId, ordinal, kind, providerKey, version, inputs) =>
        r := repository.BeginStep(claim, stepId, ordinal, kind, providerKey, version, inputs, now);
      case FinishStep(claim, stepId, outputs, verifierResult, errorCode) =>
        r := repository.FinishStep(claim, stepId, outputs, verifierResult, errorCode, now);
      case Finalize(claim, executorKey, primary, report, summary, supporting) =>
        r := repository.Finalize(claim, executorKey, primary, report, summary, supporting, now);
    }
  }

  method CallDesk(repository: RuntimeRepository, step: DeskStep) returns (r: Result<()>)
    modifies repository
    ensures Commits(ApplyDesk(old(repository.State()), step), old(repository.State()), repository.State(), r)
  {
    hide SubmitTask, BindRunSnapshots, Accept, ResolveRoute, PresentDelivery;
    var coordinator := new InboxCoordinator(repository);
    var now := repository.clock;
    match step {
      case Submit(sub) => r := repository.Submit(sub, now);
      case Bind(thread, runId, task, agent, context, expectedRevision, actor) =>
        r := repository.BindSnapshots(
          thread, runId, task, agent, context, expectedRevision, Origin(actor, now, None));
      case AcceptMessage(message, route, project, agent, seen, ids, rows) =>
        r := coordinator.AcceptMessage(message, route, project, agent, seen, ids, rows, now);
      case Resolve(stored, platform, actor, decision, target, kind, reason, agent, seen, ids, rows) =>
        r := coordinator.ResolveRecord(
          stored, platform, actor, decision, target, kind, reason, agent, seen, ids, rows, now);
      case Present(index, actor) => r := repository.Present(index, actor, now);
    }
  }

  method CallGate(repository: RuntimeRepository, step: GateStep) returns (r: Result<()>)
    modifies repository`journal, repository`threads, repository`intents, repository`intentByKey,
      repository`approvals, repository`approvalOf, repository`receipts
    ensures Commits(ApplyGate(old(repository.State()), step), old(repository.State()), repository.State(), r)
  {
    hide CreateActionIntent, CreateApproval, DecideApproval, ExpirePendingApprovals, ClaimAction, RecordReceipt,
      RecoverIncomplete;
    var now := repository.clock;
    match step {
      case CreateIntent(thread, runId, capability, request, key, requiresApproval, intentId, actor) =>
        r := repository.CreateIntent(
          thread, runId, capability, request, key, requiresApproval, intentId, Origin(actor, now, None));
      case AskApproval(intentId, riskLevel, requestedBy, reason, ttl, policy, approvalId) =>
        r := repository.RequestApproval(intentId, riskLevel, requestedBy, reason, ttl, policy, approvalId, now);
      case Decide(approvalId, decision, actor, evidence) =>
        r := repository.Decide(approvalId, decision, actor, evidence, now);
      case ExpireApprovals(rows, threads) => r := repository.ExpireApprovals(now, rows, threads);
      case TakeIntent(intentId, worker, leaseId, seconds, reconciling) =>
        r := repository.TakeIntent(intentId, worker, leaseId, seconds, reconciling, now);
      case Receipt(taken, outcome, provider, response, receiptId) =>
        r := repository.RecordOutcome(taken, outcome, provider, response, receiptId, now);
      case RecoverActions(rows) =>
        repository.RecoverActions(now, rows);
        r := Ok(());
    }
  }

  method CallHold(repository: RuntimeRepository, step: LeaseStep) returns (r: Result<()>)
    modifies repository
    ensures Commits(ApplyHold(old(repository.State()), step), old(repository.State()), repository.State(), r)
  {
    hide AcquireResource, RenewResource, ReleaseResource, ExpireLeases;
    var now := repository.clock;
    match step {
      case Acquire(key, mode, owner, thread, seconds, actor, leaseId, rows) =>
        r := repository.Acquire(key, mode, owner, thread, seconds, actor, leaseId, rows, now);
      case Renew(lease, seconds, actor) => r := repository.Renew(lease, seconds, actor, now);
      case Release(lease, actor) => r := repository.Release(lease, actor, now);
      case SweepLeases(key, rows) =>
        repository.SweepLeases(key, now, rows);
        r := Ok(());
    }
  }

  /** A call that the claim query may have completed. */
  ghost predicate SameStep(asked: Step, done: Step) {
    match asked
    case Work(work) => done.Work? && SameCall(work, done.work)
    case _ => done == asked
  }

  method CallAny(repository: RuntimeRepository, step: Step, order: seq<Id>)
    returns (r: Result<()>, ghost done: Step)
    requires !step.Raw? && forall x :: x in repository.jobs ==> x in order
    modifies repository
    ensures SameStep(step, done)
    ensures StepAnswered(old(repository.State()), done)
    ensures Commits(Apply(old(repository.State()), done), old(repository.State()), repository.State(), r)
  {
    hide Picks, Sweep, ApplyWork, ApplyDesk, ApplyGate, ApplyHold, ApplyRaw;
    done := step;
    match step {
      case Work(work) =>
        ghost var taken;
        r, taken := CallWork(repository, work, order);
        done := Work(taken);
      case Desk(desk) => r := CallDesk(repository, desk);
      case Gate(gate) => r := CallGate(repository, gate);
      case Hold(hold) => r := CallHold(repository, hold);
    }
  }

  /** One call at a time `now`: the repository object moves as the state machine does, so what holds
      in every store of the closed protocol holds of the object, whatever is called and whatever fails. */
  method Call(repository: RuntimeRepository, now: Time, step: Step, order: seq<Id>)
    returns (r: Result<()>, ghost done: Step)
    requires Reached(repository.State()) && repository.clock <= now
    requires Closed(repository.State(), now, step) && forall x :: x in repository.jobs ==> x in order
    requires StepSwept(Tick(repository.State(), now), step)
    modifies repository
    ensures SameStep(step, done)
    ensures repository.State() == After(old(repository.State()), now, done)
    ensures r.Err? ==> repository.State() == old(repository.State())
    ensures Reached(repository.State())
  {
    hide Reached, Picks, Sweep, SweepRows, Apply, Replay;
    ghost var before := repository.State();
    assert !step.Raw?;
    var clock := repository.clock;
    repository.clock := now;
    assert repository.State() == Tick(before, now);
    r, done := CallAny(repository, step, order);
    if r.Err? {
      repository.clock := clock;
    }
    assert Closed(before, now, done);
    ReachedNext(before, now, done);
  }

  /** One more call leads from a reached store to a reached store. */
  lemma ReachedNext(s: Store, now: Time, step: Step)
    requires Reached(s) && Enabled(s, now, step) && Closed(s, now, step)
    ensures Reached(After(s, now, step))
  {
    hide Enabled, Closed, After;
    var start: Time, trace: Trace :|
      && Possible(EmptyStore(start), trace) && ClosedTrace(EmptyStore(start), trace)
      && s == Execute(EmptyStore(start), trace);
    var longer := trace + [(now, step)];
    assert longer[..|longer| - 1] == trace;
    assert Execute(EmptyStore(start), longer) == After(s, now, step);
    assert Possible(EmptyStore(start), longer) && ClosedTrace(EmptyStore(start), longer);
  }

  /** A new repository is a reached store. */
  lemma EmptyIsReached(start: Time)
    ensures Reached(EmptyStore(start))
  {
    hide After, Closed, Enabled;
    var none: Trace := [];
    assert Possible(EmptyStore(start), none) && ClosedTrace(EmptyStore(start), none);
    assert Execute(EmptyStore(start), none) == EmptyStore(start);
  }
}
