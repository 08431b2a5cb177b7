/** What each call leaves behind, said outright: the rows a reader finds after it, and how long they hold. */
module Outcomes {
  import opened Prelude
  import opened Vocabulary
  import opened Journal
  import opened Reducer
  import opened Store
  import opened Snapshots
  import opened Scheduler
  import opened Actions
  import opened Resources
  import opened Lifecycle
  import opened Integrity
  import opened Agreement
  import opened Books
  import opened Protocol
  import opened Theorems

  // =========================================================================== claims

  /** The claim passes the fence exactly before `end`. */
  ghost predicate LiveUntil(s: Store, claim: WorkerClaim, end: Time) {
    forall x :: Live(s, claim, x) <==> x < end
  }

  /** The sweep fails what is listed and exhausted and leaves every other row alone. */
  lemma {:induction false} SweepOnlyFails(s: Store, now: Time, rows: seq<Id>, r: Id)
    ensures var t := Sweep(s, now, rows);
      && t.threads == s.threads && (r in t.jobs <==> r in s.jobs)
      && (r in s.jobs ==> JobAt(t, r) == if r in rows && Exhausted(s, r, now) then
            JobAt(s, r).(
              state := JobState.Failed, lease := None, lastError := Some("worker lease expired after final attempt"),
              updatedAt := now)
          else JobAt(s, r))
    decreases |rows|
  {
    hide Insert;
    if rows != [] {
      var n := |rows| - 1;
      SweepOnlyFails(s, now, rows[..n], r);
      SweepOnlyFails(s, now, rows[..n], rows[n]);
      assert r in rows <==> r in rows[..n] || r == rows[n];
    }
  }

  /** The claim names the picked job, the caller, the next token and attempt, and lasts as long as asked. */
  ghost predicate ClaimFits(
    s: Store, t: Store, claim: WorkerClaim, worker: string, leaseId: string, now: Time, end: Time)
  {
    var r := claim.runId;
    var was := JobAt(s, r);
    && r in s.jobs && r in t.jobs && t.threads == s.threads
    && claim == WorkerClaim(r, was.threadId, worker, leaseId, was.token + 1, end, was.attempts + 1)
    && JobAt(t, r) == was.(
      state := JobState.Claimed, token := was.token + 1, attempts := was.attempts + 1,
      lease := Some(Lease(worker, leaseId, end)), updatedAt := now)
    && LiveUntil(t, claim, end)
  }

  /** A granted claim is of the job the query answered, and live exactly until its lease is over. */
  lemma ClaimLastsItsLease(
    s: Store, worker: string, leaseId: string, seconds: int, keys: Option<set<string>>, rows: seq<Id>,
    pick: Option<Id>, now: Time, t: Store, claim: WorkerClaim)
    requires Picks(Sweep(s, now, rows), now, keys, pick)
    requires ClaimNextRun(s, worker, leaseId, seconds, keys, rows, pick, now) == Ok((t, Some(claim)))
    ensures pick == Some(claim.runId) && ClaimFits(s, t, claim, worker, leaseId, now, now + seconds)
  {
    hide Sweep, Insert;
    SweepOnlyFails(s, now, rows, pick.value);
  }

  /** A heartbeat moves the end of the lease and nothing else of the job. */
  lemma HeartbeatLastsItsLease(s: Store, claim: WorkerClaim, seconds: int, now: Time, t: Store)
    requires HeartbeatRun(s, claim, seconds, now) == Ok(t)
    ensures LiveUntil(t, claim, now + seconds)
    ensures t.threads == s.threads && t.jobs == s.jobs[claim.runId := JobAt(t, claim.runId)]
    ensures JobAt(t, claim.runId) == JobAt(s, claim.runId).(lease := JobAt(t, claim.runId).lease, updatedAt := now)
  {
    hide Insert;
  }

  // =========================================================================== one event

  /** q is what was expected, but for what every event stamps. */
  predicate Became(q: ThreadProjection, expected: ThreadProjection) {
    q == expected.(revision := q.revision, lastEvent := q.lastEvent, updatedAt := q.updatedAt)
  }

  /** The one table row written is the Thread's. */
  ghost predicate Rewrites(s: Store, u: Store, t: Id) {
    t in s.threads && OnlyThread(s, u, t)
  }

  lemma SameHere(s: Store, t: Id)
    requires t in s.threads
    ensures Rewrites(s, s, t) && Became(ThreadAt(s, t), ThreadAt(s, t))
  {
    assert s.threads == s.threads[t := s.threads[t]];
  }

  lemma RunStep(
    s: Store, t: Id, origin: Origin, r: Id, from: RunState, to: RunState, output: Option<Option<Artifact>>,
    error: Option<string>, u: Store)
    requires Emit(s, t, origin, RunStateChanged(r, from, to, [], output, error)) == Ok(u)
    ensures Rewrites(s, u, t) && r in ThreadAt(s, t).runs && RunAt(ThreadAt(s, t), r).state == from
    ensures var p, q := ThreadAt(s, t), ThreadAt(u, t);
      && r in q.runs && Became(q, p.(runs := p.runs[r := RunAt(q, r)], activeRun := q.activeRun))
      && RunAt(q, r).state == to && RunAt(q, r).error == error
      && RunAt(q, r) == RunAt(p, r).(
           state := to, revision := RunAt(q, r).revision, startedAt := RunAt(q, r).startedAt,
           completedAt := RunAt(q, r).completedAt, waitingOn := [], output := RunAt(q, r).output, error := error)
      && (output.Some? ==> RunAt(q, r).output == output.value)
      && (output.None? ==> RunAt(q, r).output == RunAt(p, r).output)
      && (RunAt(q, r).completedAt == if Terminal(to) then Some(origin.at) else None)
      && (RunAt(q, r).startedAt == if to.Running? && RunAt(p, r).startedAt.None? then Some(origin.at)
          else RunAt(p, r).startedAt)
      && (to.Running? ==> q.activeRun == Some(r))
      && (Terminal(to) && p.activeRun == Some(r) ==> q.activeRun.None?)
      && (!to.Running? && !(Terminal(to) && p.activeRun == Some(r)) ==> q.activeRun == p.activeRun)
  {
    hide Insert;
  }

  lemma ThreadStep(s: Store, t: Id, origin: Origin, from: ThreadState, to: ThreadState, u: Store)
    requires Emit(s, t, origin, ThreadStateChanged(from, to, [])) == Ok(u)
    ensures Rewrites(s, u, t) && ThreadAt(s, t).actual == from
    ensures Became(ThreadAt(u, t), ThreadAt(s, t).(actual := to, waitingOn := []))
  {
    hide Insert;
  }

  /** A Run and then its Thread move. */
  lemma MoveBoth(
    s: Store, t: Id, origin: Origin, r: Id, from: RunState, to: RunState, output: Option<Option<Artifact>>,
    error: Option<string>, actual: ThreadState, target: ThreadState, a: Store, b: Store)
    requires Emit(s, t, origin, RunStateChanged(r, from, to, [], output, error)) == Ok(a)
    requires Emit(a, t, origin, ThreadStateChanged(actual, target, [])) == Ok(b)
    ensures Rewrites(s, b, t) && r in ThreadAt(s, t).runs
    ensures var p, q := ThreadAt(s, t), ThreadAt(b, t);
      && Became(q, p.(runs := p.runs[r := RunAt(q, r)], activeRun := q.activeRun, actual := target, waitingOn := []))
      && RunAt(q, r).state == to && RunAt(q, r).error == error && (output.Some? ==> RunAt(q, r).output == output.value)
      && (p.activeRun == Some(r) && !to.Running? ==> q.activeRun == if Terminal(to) then None else p.activeRun)
  {
    hide Emit;
    RunStep(s, t, origin, r, from, to, output, error, a);
    ThreadStep(a, t, origin, actual, target, b);
  }

  lemma AttentionStep(s: Store, t: Id, origin: Origin, attention: AttentionState, u: Store)
    requires Emit(s, t, origin, AttentionChanged(attention)) == Ok(u)
    ensures Rewrites(s, u, t) && Became(ThreadAt(u, t), ThreadAt(s, t).(attention := attention))
  {
    hide Insert;
  }

  // =========================================================================== settlement

  predicate GivesUp(outcome: Outcome, job: SchedulerJob) {
    match outcome
    case Succeeded(_) => false
    case Failure(_, _, retryable, _) => !retryable || job.attempts >= job.maxAttempts
  }

  /** A success completes Run and job; a failure fails both unless it is retryable and attempts are left;
      then both are queued again, for after the delay. */
  ghost predicate SettledAs(s: Store, t: Store, claim: WorkerClaim, outcome: Outcome, now: Time) {
    var r := claim.runId;
    var was, job, p, q := JobAt(s, r), JobAt(t, r), ThreadAt(s, claim.threadId), ThreadAt(t, claim.threadId);
    && claim.threadId in t.threads && r in q.runs && r in t.jobs
    && t.jobs == s.jobs[r := job] && t.threads == s.threads[claim.threadId := q]
    && job == was.(
        state := job.state, availableAt := job.availableAt, lease := None, lastError := job.lastError,
        updatedAt := now)
    && q.runs == p.runs[r := RunAt(q, r)]
    && match outcome
    case Succeeded(output) =>
      && RunAt(q, r).state.Completed? && q.actual.Dormant? && job.state.Completed?
      && RunAt(q, r).output == Some(output) && RunAt(q, r).error.None? && job.lastError.None?
      && job.availableAt == was.availableAt && q.attention == p.attention && q.activeRun.None?
    case Failure(code, error, retryable, delay) =>
      && RunAt(q, r).output.None? && RunAt(q, r).error == Some(error) && job.lastError == Some(code + ": " + error)
      && (if GivesUp(outcome, was) then
            && RunAt(q, r).state.Failed? && q.actual.Failed? && job.state.Failed?
            && job.availableAt == was.availableAt && q.attention.Failed? && q.activeRun.None?
          else
            && RunAt(q, r).state.Queued? && q.actual.Queued? && job.state.Queued?
            && job.availableAt == now + (if delay > 0 then delay else 0)
            && q.attention == p.attention && q.activeRun == Some(r))
  }

  /** The Run, Thread and attention halves of a settlement. */
  lemma ThreadSettles(
    s: Store, claim: WorkerClaim, how: Settlement, output: Option<Artifact>, error: Option<string>, origin: Origin,
    u: Store)
    requires SettleThread(s, claim, how, output, error, origin) == Ok(u)
    ensures Rewrites(s, u, claim.threadId)
    ensures var p, q := ThreadAt(s, claim.threadId), ThreadAt(u, claim.threadId);
      var run := RunAt(q, claim.runId);
      && claim.runId in p.runs && q.runs == p.runs[claim.runId := run]
      && run.state == RunTarget(how) && run.output == output && run.error == error && q.actual == ThreadTarget(how)
      && q.attention == (if how.GiveUp? then AttentionState.Failed else p.attention)
      && (p.activeRun == Some(claim.runId) ==> q.activeRun == if how.Retry? then p.activeRun else None)
  {
    hide Emit;
    var t, r, p := claim.threadId, claim.runId, s.threads[claim.threadId];
    var first := RunStateChanged(r, p.runs[r].state, RunTarget(how), [], Some(output), error);
    var a := Emit(s, t, origin, first).value;
    var b := Emit(a, t, origin, ThreadStateChanged(p.actual, ThreadTarget(how), [])).value;
    MoveBoth(
      s, t, origin, r, p.runs[r].state, RunTarget(how), Some(output), error, p.actual, ThreadTarget(how), a, b);
    if how.GiveUp? && !p.attention.Failed? {
      AttentionStep(b, t, origin, AttentionState.Failed, u);
    }
  }

  lemma JobSettles(s: Store, r: Id, how: Settlement, error: Option<string>, origin: Origin)
    requires r in s.jobs
    ensures var u := SettleJob(s, r, how, error, origin);
      && u == s.(journal := u.journal, jobs := u.jobs) && r in u.jobs && u.jobs == s.jobs[r := JobAt(u, r)]
      && JobAt(u, r) == JobAt(s, r).(
        state := if how.Done? then JobState.Completed else if how.Retry? then JobState.Queued else JobState.Failed,
        availableAt := if how.Retry? then how.availableAt else JobAt(s, r).availableAt,
        lease := None, lastError := error, updatedAt := origin.at)
  {
    hide Insert;
  }

  /** How a claimed execution ends. */
  lemma SettlementLeaves(
    s: Store, claim: WorkerClaim, executorKey: string, version: string, outcome: Outcome, now: Time, t: Store)
    requires FinishClaimedExecution(s, claim, executorKey, version, outcome, now) == Ok(t)
    ensures SettledAs(s, t, claim, outcome, now)
  {
    hide SettleThread, SettleJob, NonBlank, Strip;
    var r, origin := claim.runId, Origin(claim.worker, now, None);
    var how := SettlementOf(outcome, s.jobs[r], now);
    var ended := SettleThread(s, claim, how, OutputOf(outcome), ErrorOf(outcome), origin).value;
    ThreadSettles(s, claim, how, OutputOf(outcome), ErrorOf(outcome), origin, ended);
    JobSettles(ended, r, how, LastErrorOf(outcome), origin);
  }

  /** The failure is retried, and not before x. */
  predicate RetryDue(outcome: Outcome, job: SchedulerJob, now: Time, x: Time) {
    outcome.Failure? && !GivesUp(outcome, job) && now + (if outcome.delay > 0 then outcome.delay else 0) <= x
  }

  /** The raw settlement ends the job the same way and leaves the Run alone. */
  lemma RawSettlementLeaves(
    s: Store, claim: WorkerClaim, succeeded: bool, error: Option<string>, retryable: bool, delay: int, now: Time,
    t: Store)
    requires FinishRunClaim(s, claim, succeeded, error, retryable, delay, now) == Ok(t)
    ensures t.threads == s.threads && t.jobs == s.jobs[claim.runId := JobAt(t, claim.runId)]
    ensures var was, job := JobAt(s, claim.runId), JobAt(t, claim.runId);
      var again := !succeeded && retryable && was.attempts < was.maxAttempts;
      && job == was.(
        state := job.state, availableAt := job.availableAt, lease := None, lastError := error, updatedAt := now)
      && (job.state.Completed? <==> succeeded) && (job.state.Queued? <==> again)
      && (job.state.Failed? <==> !succeeded && !again)
      && job.availableAt == if again then now + (if delay > 0 then delay else 0) else was.availableAt
  {
    hide SettleJob;
    var job := s.jobs[claim.runId];
    var how :=
      if succeeded then Done
      else if retryable && job.attempts < job.maxAttempts then Retry(RetryAt(now, delay))
      else GiveUp;
    JobSettles(s, claim.runId, how, error, Origin(claim.worker, now, None));
  }

  /** The raw scheduling call stores the job as asked, under the caller's executor or else the Run's; asking again
      changes nothing. */
  lemma EnqueueLeaves(
    s: Store, threadId: Id, runId: Id, priority: int, availableAt: Time, maxAttempts: int,
    executorKey: Option<string>, actor: string, now: Time, t: Store)
    requires EnqueueRun(s, threadId, runId, priority, availableAt, maxAttempts, executorKey, actor, now) == Ok(t)
    ensures maxAttempts >= 1 && threadId in s.threads && runId in ThreadAt(s, threadId).runs && runId in t.jobs
    ensures var own := RunAt(ThreadAt(s, threadId), runId).executorKey;
      var key := if executorKey.Some? && executorKey.value != "" then executorKey.value else own;
      && JobAt(t, runId).threadId == threadId && JobAt(t, runId).executorKey == key
      && (runId in s.jobs ==> t == s)
      && (runId !in s.jobs ==>
            && t == s.(journal := t.journal, jobs := s.jobs[runId := JobAt(t, runId)])
            && JobAt(t, runId) == SchedulerJob(
              runId, threadId, JobState.Queued, priority, availableAt, 0, maxAttempts, key, None, 0, None, now, now))
  {
    hide InsertJob, NonBlank;
    if runId !in s.jobs {
      var run := s.threads[threadId].runs[runId];
      var key := if executorKey.Some? && executorKey.value != "" then executorKey.value else run.executorKey;
      JobInserted(
        s, NewJob(runId, threadId, priority, availableAt, maxAttempts, key, now), Origin(actor, now, None), t);
    }
  }

  predicate Serves(keys: Option<set<string>>, executorKey: string) {
    keys.Some? ==> executorKey in keys.value
  }

  /** A job put back can be claimed by its executor from the end of the delay on and not before; any other
      ending leaves nothing to claim. */
  lemma RetryIsClaimable(
    s: Store, claim: WorkerClaim, executorKey: string, version: string, outcome: Outcome, now: Time, t: Store)
    requires ReachedByAny(s) && s.clock <= now
    requires FinishClaimedExecution(s, claim, executorKey, version, outcome, now) == Ok(t)
    ensures forall x, keys :: Eligible(t, claim.runId, x, keys) <==>
      RetryDue(outcome, JobAt(s, claim.runId), now, x) && Serves(keys, JobAt(s, claim.runId).executorKey)
  {
    hide ReachedByAny, OpenInv, ActionsInv, JobsReplayed, ClaimsNumbered, TokensCountClaims, NonBlank, Strip,
      SettleThread, SettleJob;
    AnyIsSound(s);
    OpenSchedules(s);
    SettlementLeaves(s, claim, executorKey, version, outcome, now, t);
    var r := claim.runId;
    assert Live(s, claim, now) && t.jobs.Keys == s.jobs.Keys;
    assert HoldsLease(s.jobs[r], s.clock) && RowOK(r, JobAt(s, r));
    forall x, other | other in t.jobs && other != r && t.jobs[other].threadId == t.jobs[r].threadId && now <= x
      ensures !HoldsLease(t.jobs[other], x)
    {
      assert t.jobs[other] == s.jobs[other];
    }
  }

  /** A claim of a Run with frozen inputs can be started at once, and until its lease is over. */
  lemma GrantedClaimStarts(
    s: Store, worker: string, leaseId: string, seconds: int, keys: Option<set<string>>, rows: seq<Id>,
    pick: Option<Id>, now: Time, t: Store, claim: WorkerClaim, x: Time)
    requires Reached(s) && Enabled(s, now, Work(WorkStep.Claim(worker, leaseId, seconds, keys, rows, pick)))
    requires ClaimNextRun(Tick(s, now), worker, leaseId, seconds, keys, rows, pick, now) == Ok((t, Some(claim)))
    ensures StartClaimedRun(t, claim, x).Ok? <==>
      x < now + seconds && SnapshotsBoundTo(RunAt(ThreadAt(s, claim.threadId), claim.runId))
  {
    hide Reached, ClosedInv, OpenInv, AgreeInv, StartClaimedRun, ClaimNextRun, Sweep, Picks, SweepRows, ApplyDesk,
      ApplyGate, ApplyHold, ApplyRaw, StepSwept;
    var step := Work(WorkStep.Claim(worker, leaseId, seconds, keys, rows, pick));
    ReachedIsClosed(s);
    AfterClosed(s, now, step);
    assert After(s, now, step) == t && Answered(Tick(s, now), step.work);
    ClosedAgrees(t);
    ClaimLastsItsLease(Tick(s, now), worker, leaseId, seconds, keys, rows, pick, now, t, claim);
    StartIff(t, claim, x);
  }

  // =========================================================================== resource leases

  /** Only this lease row is written. */
  ghost predicate OnlyLease(s: Store, t: Store, l: string) {
    l in t.leases && t == s.(journal := t.journal, leases := s.leases[l := Row(t.leases, l)])
  }

  /** The lease is in force, and its holder passes the fence, exactly before `end`. */
  ghost predicate HeldUntil(t: Store, lease: ResourceLease, end: Time) {
    forall x :: (Holding(Row(t.leases, lease.leaseId), x) <==> x < end) && (LiveResource(t, lease, x) <==> x < end)
  }

  ghost predicate HeldByNobody(t: Store, lease: ResourceLease) {
    forall x :: !Holding(Row(t.leases, lease.leaseId), x) && !LiveResource(t, lease, x)
  }

  lemma LeaseKeyed(s: Store, l: string)
    requires ReachedByAny(s) && l in s.leases
    ensures Row(s.leases, l).leaseId == l
  {
    hide ReachedByAny, Faithful, SchedulerInv, ActionsInv, FencesCountGrants, GrantsNumbered, ReadersOrOneWriter;
    AnyIsSound(s);
    assert LeaseRowOK(s, l, Row(s.leases, l));
  }

  ghost predicate GrantedAs(s: Store, t: Store, row: ResourceLease) {
    && HeldUntil(t, row, row.expiresAt)
    && row.token == LastToken(s, row.resourceKey) + 1 && t.fences == s.fences[row.resourceKey := row.token]
  }

  /** A granted lease carries the key's next token and is in force for as long as was asked. */
  lemma GrantLastsItsLease(
    s: Store, key: string, mode: AccessMode, owner: Id, thread: Id, seconds: int, actor: string, leaseId: string,
    rows: seq<string>, now: Time, t: Store)
    requires ReachedByAny(s)
    requires AcquireResource(s, key, mode, owner, thread, seconds, actor, leaseId, rows, now) == Ok(t)
    ensures leaseId !in s.leases && leaseId in t.leases && GrantedAs(s, t, Row(t.leases, leaseId))
    ensures var row := Row(t.leases, leaseId);
      row == ResourceLease(
        leaseId, key, mode, owner, thread, row.token, now, now + seconds, LeaseStatus.Active)
  {
    hide ReachedByAny, Faithful, SchedulerInv, ActionsInv, FencesCountGrants, GrantsNumbered, ReadersOrOneWriter,
      ExpireLeases, Contended, Insert;
    AnyIsSound(s);
    SweepSparesHolders(s, key, now, rows);
  }

  /** A renewal moves the end of the lease and nothing else. */
  lemma RenewalLastsItsLease(s: Store, lease: ResourceLease, seconds: int, actor: string, now: Time, t: Store)
    requires ReachedByAny(s) && RenewResource(s, lease, seconds, actor, now) == Ok(t)
    ensures OnlyLease(s, t, lease.leaseId) && HeldUntil(t, lease, now + seconds)
    ensures Row(t.leases, lease.leaseId) == Row(s.leases, lease.leaseId).(expiresAt := now + seconds)
  {
    hide ReachedByAny, Insert;
    LeaseKeyed(s, lease.leaseId);
  }

  /** A release ends the lease, at once and for every later time, and touches no other. */
  lemma ReleaseEndsLease(s: Store, lease: ResourceLease, actor: string, now: Time, t: Store)
    requires ReachedByAny(s) && ReleaseResource(s, lease, actor, now) == Ok(t)
    ensures OnlyLease(s, t, lease.leaseId) && HeldByNobody(t, lease)
    ensures Row(t.leases, lease.leaseId)
         == Row(s.leases, lease.leaseId).(status := Row(t.leases, lease.leaseId).status)
  {
    hide ReachedByAny, Insert;
    LeaseKeyed(s, lease.leaseId);
  }

  /** The store after a release at `now`, on a store some run leads to. */
  ghost predicate Releases(s: Store, lease: ResourceLease, actor: string, now: Time, t: Store) {
    ReachedByAny(s) && s.clock <= now && ReleaseResource(Tick(s, now), lease, actor, now) == Ok(t)
  }

  lemma ReleasedStore(s: Store, lease: ResourceLease, actor: string, now: Time, t: Store)
    requires Releases(s, lease, actor, now, t)
    ensures ReachedByAny(t) && t.clock == now
    ensures OnlyLease(Tick(s, now), t, lease.leaseId) && HeldByNobody(t, lease)
  {
    hide ReachedByAny, ReleaseResource, ApplyWork, ApplyDesk, ApplyGate, ApplyRaw;
    AnyNext(s, now, Hold(SweepLeases("", [])));
    assert After(s, now, Hold(SweepLeases("", []))) == Tick(s, now);
    ReleaseEndsLease(Tick(s, now), lease, actor, now, t);
    AnyNext(s, now, Hold(LeaseStep.Release(lease, actor)));
  }

  /** Every other lease in force on the released lease's key can share with the mode. */
  ghost predicate OthersShare(s: Store, lease: ResourceLease, mode: AccessMode, now: Time) {
    forall l :: l in s.leases && l != lease.leaseId && Row(s.leases, l).resourceKey == lease.resourceKey ==>
      Holding(Row(s.leases, l), now) ==> mode.Read? && Row(s.leases, l).mode.Read?
  }

  /** After a release a request is granted exactly when every other lease in force on the key can share. */
  lemma ReleaseFrees(
    s: Store, lease: ResourceLease, actor: string, now: Time, t: Store, later: Time, mode: AccessMode, owner: Id,
    thread: Id, seconds: int, leaseId: string, rows: seq<string>)
    requires Releases(s, lease, actor, now, t) && now <= later && seconds >= 1 && leaseId !in s.leases
    ensures OthersShare(s, lease, mode, later) <==>
      AcquireResource(
        Tick(t, later), lease.resourceKey, mode, owner, thread, seconds, actor, leaseId, rows, later).Ok?
  {
    hide ReachedByAny, OpenInv, AcquireResource, ResourcesInv;
    ReleasedStore(s, lease, actor, now, t);
    AnyIsSound(t);
    TickSound(t, later);
    var u := Tick(t, later);
    assert ResourcesInv(u) by {
      assert OpenInv(u);
      OpenHolds(u);
    }
    AcquireIff(u, lease.resourceKey, mode, owner, thread, seconds, actor, leaseId, rows);
    assert lease.leaseId in s.leases && u.leases.Keys == s.leases.Keys;
    assert forall l :: l in s.leases && l != lease.leaseId ==> Row(u.leases, l) == Row(s.leases, l);
  }

  lemma OpenHolds(s: Store)
    requires OpenInv(s)
    ensures ResourcesInv(s)
  {
    hide Faithful, SchedulerInv, ActionsInv, ResourcesInv;
  }

  /** Whatever happens after a release, its holder can neither renew nor release again. */
  lemma ReleaseIsFinal(
    s: Store, lease: ResourceLease, actor: string, now: Time, t: Store, trace: Trace, later: Time, seconds: int)
    requires Releases(s, lease, actor, now, t) && Possible(t, trace) && Execute(t, trace).clock <= later
    ensures RenewResource(Execute(t, trace), lease, seconds, actor, later) == Err(StaleLease)
    ensures ReleaseResource(Execute(t, trace), lease, actor, later) == Err(StaleLease)
  {
    hide ReachedByAny, Possible, Execute, ReleaseResource, RenewResource;
    ReleasedStore(s, lease, actor, now, t);
    StaleLeasesStayStale(t, trace, lease, later, seconds, actor);
  }

  // =========================================================================== actions

  /** Only this intent, the receipts and the journal are written. */
  ghost predicate OnlyIntent(s: Store, t: Store, i: Id) {
    && i in s.intents && i in t.intents
    && t == s.(journal := t.journal, receipts := t.receipts, intents := s.intents[i := Row(t.intents, i)])
  }

  lemma KeyedAsAny(s: Store, i: Id)
    requires ReachedByAny(s) && i in s.intents
    ensures Row(s.intents, i).intentId == i
  {
    hide ReachedByAny, OpenInv;
    AnyIsSound(s);
    IntentKeyed(s, i);
  }

  /** What a receipt's outcome makes of its intent. */
  predicate Means(status: ActionStatus, outcome: ReceiptOutcome) {
    match outcome
    case Succeeded => status.Succeeded?
    case Failed => status.Failed?
    case NotFound => status.Pending?
    case Unknown => status.ReconcileRequired?
  }

  /** A new receipt is stored as it is and settles its intent as its outcome says; a repeat changes nothing. */
  lemma ReceiptSettles(
    s: Store, claim: ActionClaim, outcome: ReceiptOutcome, provider: string, response: Option<Artifact>, receiptId: Id,
    now: Time, t: Store)
    requires ReachedByAny(s) && RecordReceipt(s, claim, outcome, provider, response, receiptId, now) == Ok(t)
    ensures HasReceipt(s.receipts, receiptId) ==> t == s
    ensures !HasReceipt(s.receipts, receiptId) ==>
      var was, row := Row(s.intents, claim.intentId), Row(t.intents, claim.intentId);
      && OnlyIntent(s, t, claim.intentId)
      && t.receipts == s.receipts + [ActionReceipt(receiptId, claim.intentId, outcome, provider, response, now)]
      && row == was.(status := row.status, lease := None, lastError := row.lastError, updatedAt := now)
      && Means(row.status, outcome) && (row.lastError.Some? <==> outcome.Unknown?)
  {
    hide ReachedByAny, Insert, NonBlank, HasReceipt;
    if !HasReceipt(s.receipts, receiptId) {
      KeyedAsAny(s, claim.intentId);
    }
  }

  /** The claim passes the fence of its receipt exactly before `end`. */
  ghost predicate TakenUntil(t: Store, claim: ActionClaim, end: Time) {
    forall x :: LiveAction(t, claim, x) <==> x < end
  }

  predicate AwaitsReconciliation(row: ActionIntent, now: Time) {
    row.status.ReconcileRequired? || ActionLapsed(row, now)
  }

  /** The intent executes, or recovers, under its next token until `end`. */
  ghost predicate TakenAs(s: Store, t: Store, i: Id, lease: Lease, reconciling: bool, now: Time) {
    var was, row := Row(s.intents, i), Row(t.intents, i);
    && OnlyIntent(s, t, i) && t.receipts == s.receipts && row.token == was.token + 1
    && row == was.(
      status := row.status, token := row.token, lease := Some(lease), lastError := row.lastError, updatedAt := now)
    && (if reconciling then row.status.Recovering? else row.status.Executing?)
    && var claim := ActionClaim(i, lease.owner, lease.leaseId, row.token, lease.expiresAt, reconciling);
    TakenUntil(t, claim, lease.expiresAt)
  }

  /** Noticing a lapse sends the intent to reconciliation and writes nothing else. */
  lemma NoticeKeeps(s: Store, i: Id, now: Time)
    requires i in s.intents && Row(s.intents, i).intentId == i
    ensures var u := NoticeLapse(s, i, now);
      var was, row := Row(s.intents, i), Row(u.intents, i);
      && i in u.intents && u == s.(journal := u.journal, intents := u.intents) && u.intents == s.intents[i := row]
      && (if ActionLapsed(was, now) then
            && row.status.ReconcileRequired?
            && row == was.(status := row.status, lease := None, lastError := row.lastError, updatedAt := now)
          else row == was)
  {
    hide Insert, DraftOf;
    if !ActionLapsed(s.intents[i], now) {
      assert s.intents == s.intents[i := s.intents[i]];
    }
  }

  lemma TakeActionTakes(s: Store, i: Id, lease: Lease, reconciling: bool, now: Time, t: Store)
    requires TakeAction(s, i, lease, reconciling, now) == Ok(t) && Row(s.intents, i).intentId == i
    ensures TakenAs(s, t, i, lease, reconciling, now)
  {
    hide Insert;
  }

  /** A granted claim lasts for as long as was asked. */
  lemma ActionClaimLasts(
    s: Store, i: Id, worker: string, leaseId: string, seconds: int, reconciling: bool, now: Time, t: Store)
    requires ReachedByAny(s) && ClaimAction(s, i, worker, leaseId, seconds, reconciling, now) == Ok(t)
    ensures TakenAs(s, t, i, Lease(worker, leaseId, now + seconds), reconciling, now)
  {
    hide ReachedByAny, NoticeLapse, TakeAction, TakenUntil;
    KeyedAsAny(s, i);
    NoticeKeeps(s, i, now);
    TakeActionTakes(NoticeLapse(s, i, now), i, Lease(worker, leaseId, now + seconds), reconciling, now, t);
  }

  /** A reconciliation claim is granted exactly on an intent whose effect is in doubt. */
  lemma ReconciliationClaimIff(s: Store, i: Id, worker: string, leaseId: string, seconds: int, now: Time)
    requires ReachedByAny(s)
    ensures ClaimAction(s, i, worker, leaseId, seconds, true, now).Ok?
      <==> seconds >= 1 && i in s.intents && AwaitsReconciliation(Row(s.intents, i), now)
  {
    hide ReachedByAny, NoticeLapse, WriteIntent;
    if i in s.intents {
      KeyedAsAny(s, i);
      NoticeKeeps(s, i, now);
    }
  }

  /** A request under a new key is stored as asked and waits; under a known key it is the stored one. */
  lemma IntentStored(
    s: Store, threadId: Id, runId: Id, capability: string, request: Artifact, key: string, requiresApproval: bool,
    intentId: Id, origin: Origin, t: Store)
    requires CreateActionIntent(
      s, threadId, runId, capability, request, key, requiresApproval, intentId, origin) == Ok(t)
    ensures key in t.intentByKey && Row(t.intentByKey, key) in t.intents
    ensures var row := Row(t.intents, Row(t.intentByKey, key));
      && row.threadId == threadId && row.runId == runId && row.capability == capability && row.request == request
      && row.requiresApproval == requiresApproval
      && (t != s ==>
            && row.intentId == intentId && intentId !in s.intents && row.idempotencyKey == key
            && row.status.Pending? && row.token == 0 && row.lease.None?
            && t.intents == s.intents[intentId := row] && t.intentByKey == s.intentByKey[key := intentId])
  {
    hide StoreIntent, NonBlank;
    IntentWritten(
      s, ActionIntent(intentId, key, threadId, runId, capability, request, requiresApproval, ActionStatus.Pending, None,
        0, None, origin.at, origin.at), origin, t);
  }

  lemma IntentWritten(s: Store, intent: ActionIntent, origin: Origin, t: Store)
    requires StoreIntent(s, intent, origin) == Ok(t)
    ensures var key := intent.idempotencyKey;
      if key in s.intentByKey && s.intentByKey[key] in s.intents then
        t == s && SameRequest(Row(s.intents, Row(s.intentByKey, key)), intent)
      else
        && intent.intentId !in s.intents && t.intents == s.intents[intent.intentId := intent]
        && t.intentByKey == s.intentByKey[key := intent.intentId]
  {
    hide Insert;
  }

  // =========================================================================== approvals

  ghost predicate AskedBefore(s: Store, i: Id) {
    i in s.approvalOf && Row(s.approvalOf, i) in s.approvals
  }

  /** A new approval waits for as long as was asked, and its Thread asks for attention. */
  lemma ApprovalAsked(
    s: Store, intentId: Id, riskLevel: string, requestedBy: string, reason: string, ttl: int,
    policy: Option<Artifact>, approvalId: Id, now: Time, t: Store)
    requires !AskedBefore(s, intentId)
    requires CreateApproval(s, intentId, riskLevel, requestedBy, reason, ttl, policy, approvalId, now) == Ok(t)
    ensures intentId in s.intents && t.intents == s.intents && t.jobs == s.jobs
    ensures var row := ApprovalRequest(
        approvalId, intentId, ApprovalState.Pending, riskLevel, requestedBy, reason, policy, now, now + ttl, now, None,
        None);
      t.approvals == s.approvals[approvalId := row] && t.approvalOf == s.approvalOf[intentId := approvalId]
    ensures forall x :: Due(t, approvalId, x) <==> now + ttl <= x
    ensures ThreadAt(t, Row(s.intents, intentId).threadId).attention.NeedsApproval?
  {
    hide Insert, SetAttention;
    var approval := ApprovalRequest(
      approvalId, intentId, ApprovalState.Pending, riskLevel, requestedBy, reason, policy, now, now + ttl, now, None,
      None);
    AttentionFacts(
      OpenApproval(s, approval, Origin(requestedBy, now, None)), s.intents[intentId].threadId,
      AttentionState.NeedsApproval, Origin("approval-gate", now, None));
  }

  /** The intents a decision leaves: a denial cancels the intent it finds waiting. */
  ghost predicate IntentsAfter(s: Store, t: Store, i: Id, decision: ApprovalState, now: Time) {
    if decision.Denied? && i in s.intents && Row(s.intents, i).status.Pending? then
      t.intents == s.intents[i := Row(s.intents, i).(
        status := ActionStatus.Cancelled, lastError := Some("action denied by approval gate"), updatedAt := now)]
    else t.intents == s.intents
  }

  /** A decision is recorded with who made it and on what evidence; once nothing is pending, nothing is asked. */
  lemma DecisionLeaves(
    s: Store, a: Id, decision: ApprovalState, actor: string, evidence: Option<Artifact>, now: Time, t: Store)
    requires ApprovalsKeyed(s) && DecideApproval(s, a, decision, actor, evidence, now) == Ok(t)
    ensures a in s.approvals && (decision.Approved? || decision.Denied?)
    ensures Row(s.approvals, a).status == decision ==> t == s
    ensures Row(s.approvals, a).status != decision ==>
      var was := Row(s.approvals, a);
      var thread := Row(s.intents, was.intentId).threadId;
      && was.status.Pending?
      && t.approvals == s.approvals[a := was.(
           status := decision, updatedAt := now, resolvedBy := Some(actor), evidence := evidence)]
      && IntentsAfter(s, t, was.intentId, decision, now)
      && (NothingPending(t, thread) ==> ThreadAt(t, thread).attention.Calm?)
      && (!NothingPending(t, thread) ==> t.threads == s.threads)
  {
    hide Insert, SetAttention, OwnerThread;
    if s.approvals[a].status != decision {
      var decided := RecordDecision(s, a, decision, actor, evidence, now);
      var thread := s.intents[s.approvals[a].intentId].threadId;
      assert decided.intents.Keys == s.intents.Keys;
      ClearFacts(decided, thread, now);
    }
  }

  // =========================================================================== work under a claim

  /** A start leaves the Run and its Thread running and changes no other Run. */
  lemma StartLeaves(s: Store, claim: WorkerClaim, now: Time, t: Store)
    requires StartClaimedRun(s, claim, now) == Ok(t)
    ensures Rewrites(s, t, claim.threadId)
    ensures var p, q := ThreadAt(s, claim.threadId), ThreadAt(t, claim.threadId);
      var was, run := RunAt(p, claim.runId), RunAt(q, claim.runId);
      && claim.runId in p.runs && q.runs == p.runs[claim.runId := run]
      && run.state.Running? && q.actual.Running? && q.attention == p.attention
      && (if was.state.Running? then run == was
          else
            && q.activeRun == Some(claim.runId) && run.startedAt.Some?
            && run == was.(
                 state := RunState.Running, revision := run.revision, startedAt := run.startedAt, completedAt := None,
                 waitingOn := [], error := None)
            && (was.startedAt.None? ==> run.startedAt == Some(now)))
  {
    hide Emit, Live, SnapshotsBoundTo;
    var th, r, origin := claim.threadId, claim.runId, Origin(claim.worker, now, None);
    var p := s.threads[th];
    var awake := s;
    if p.actual.Running? {
      SameHere(s, th);
    } else {
      awake := Emit(s, th, origin, ThreadStateChanged(p.actual, ThreadState.Running, [])).value;
      ThreadStep(s, th, origin, p.actual, ThreadState.Running, awake);
    }
    if !p.runs[r].state.Running? {
      RunStep(awake, th, origin, r, p.runs[r].state, RunState.Running, None, None, t);
    }
  }

  /** Binding freezes the Run's inputs, on the Thread at the revision it was read at, and nothing else changes. */
  lemma BindingLeaves(
    s: Store, thread: Id, runId: Id, task: Artifact, agent: Artifact, context: Artifact, expectedRevision: nat,
    origin: Origin, t: Store)
    requires BindRunSnapshots(s, thread, runId, task, agent, context, expectedRevision, origin) == Ok(t)
    ensures Rewrites(s, t, thread) && ThreadAt(s, thread).revision == expectedRevision
    ensures var p, q := ThreadAt(s, thread), ThreadAt(t, thread);
      && runId in p.runs && Became(q, p.(runs := p.runs[runId := RunAt(q, runId)]))
      && RunAt(q, runId) == RunAt(p, runId).(
        revision := RunAt(q, runId).revision, task := Some(task), agent := Some(agent), context := Some(context))
  {
    hide Emit;
    BindingStep(s, thread, origin, runId, task, agent, context, t);
  }

  /** A checkpoint becomes the Run's latest, under the next number, and nothing else changes. */
  lemma CheckpointLeaves(s: Store, claim: WorkerClaim, checkpoint: Artifact, now: Time, t: Store)
    requires RecordClaimedCheckpoint(s, claim, checkpoint, now) == Ok(t)
    ensures Rewrites(s, t, claim.threadId)
    ensures var p, q := ThreadAt(s, claim.threadId), ThreadAt(t, claim.threadId);
      var was, run := RunAt(p, claim.runId), RunAt(q, claim.runId);
      && claim.runId in p.runs && Became(q, p.(runs := p.runs[claim.runId := run]))
      && run == was.(
        revision := run.revision, checkpoint := Some(checkpoint), checkpointSequence := was.checkpointSequence + 1)
  {
    hide Insert, Live;
  }

  /** A new step is stored as asked and runs; a repeated id is the same step. */
  lemma StepBegins(
    s: Store, claim: WorkerClaim, stepId: Id, ordinal: nat, kind: StepKind, providerKey: string,
    providerVersion: string, inputs: seq<Artifact>, now: Time, t: Store)
    requires BeginClaimedStep(s, claim, stepId, ordinal, kind, providerKey, providerVersion, inputs, now) == Ok(t)
    ensures stepId in t.steps && t.threads == s.threads && t.jobs == s.jobs
    ensures var row := Row(t.steps, stepId);
      && row.threadId == claim.threadId && row.runId == claim.runId && row.attempt == claim.attempt
      && row.ordinal == ordinal && row.kind == kind && row.inputs == inputs
      && row.providerKey == Strip(providerKey) && row.providerVersion == Strip(providerVersion)
      && (if stepId in s.steps then t == s
          else
            && t.steps == s.steps[stepId := row] && row.stepId == stepId && row.state.Running? && row.outputs == []
            && row.verifierResult.None? && row.errorCode.None?
            && RunAt(ThreadAt(s, claim.threadId), claim.runId).state.Running?)
  {
    hide Log, Live, NonBlank, Strip, SlotTaken;
    var origin, thread := Origin(claim.worker, now, None), Some(claim.threadId);
    LogKeepsTables(s, StepStream(stepId), thread, origin, StepCreated);
    LogKeepsTables(Log(s, StepStream(stepId), thread, origin, StepCreated), StepStream(stepId), thread, origin,
      StepStarted);
  }

  /** A finished step has its outputs, and has succeeded exactly when no error is given. */
  lemma StepEnds(
    s: Store, claim: WorkerClaim, stepId: Id, outputs: seq<Artifact>, verifierResult: Option<Artifact>,
    errorCode: Option<string>, now: Time, t: Store)
    requires FinishClaimedStep(s, claim, stepId, outputs, verifierResult, errorCode, now) == Ok(t)
    ensures stepId in s.steps && t.threads == s.threads && t.jobs == s.jobs
    ensures var was, row := Row(s.steps, stepId), Row(t.steps, stepId);
      && t.steps == s.steps[stepId := row] && was.state.Running? && was.runId == claim.runId
      && row == was.(
        state := row.state, outputs := outputs, verifierResult := verifierResult, errorCode := errorCode)
      && (row.state.Succeeded? <==> errorCode.None?) && (row.state.Failed? <==> errorCode.Some?)
  {
    hide Log, Live;
    var origin, thread := Origin(claim.worker, now, None), Some(claim.threadId);
    LogKeepsTables(s, StepStream(stepId), thread, origin, StepOutputs);
    var noted := if outputs == [] then s else Log(s, StepStream(stepId), thread, origin, StepOutputs);
    LogKeepsTables(noted, StepStream(stepId), thread, origin, StepEnded(errorCode.None?));
  }

  /** What a finalized claim leaves: a delivery of its own, its Run completed with the delivered artifact, its
      job completed, its Thread delivered and asking to be read, and one notice. */
  ghost predicate Delivers(
    s: Store, t: Store, claim: WorkerClaim, primary: Artifact, report: Artifact, summary: Artifact,
    supporting: seq<Artifact>, now: Time)
  {
    var r, p, q := claim.runId, ThreadAt(s, claim.threadId), ThreadAt(t, claim.threadId);
    var job := JobAt(s, r).(state := JobState.Completed, lease := None, lastError := None, updatedAt := now);
    && t == s.(
      journal := t.journal, threads := s.threads[claim.threadId := q], jobs := s.jobs[r := job],
      deliveries := t.deliveries, outbox := t.outbox)
    && r in p.runs && q.runs == p.runs[r := RunAt(q, r)]
    && RunAt(q, r).state.Completed? && RunAt(q, r).output == Some(primary) && RunAt(q, r).error.None?
    && q.actual.Delivered? && q.attention.DeliveryReady? && q.activeRun.None?
    && |t.deliveries| == |s.deliveries| + 1 && s.deliveries <= t.deliveries
    && |t.outbox| == |s.outbox| + 1 && s.outbox <= t.outbox
    && var row, item := t.deliveries[|s.deliveries|], t.outbox[|s.outbox|];
    && q.latestDelivery == Some(row.deliveryId) && row.state.Prepared? && row.createdAt == now
    && row.threadId == claim.threadId && row.runId == r
    && row.primary == primary && row.summary == summary && row.verifierResult == report
    && row.supporting == Dedup(supporting)
    && item.deliveryId == row.deliveryId && item.threadId == row.threadId && item.runId == r
    && item.payload == summary
  }

  lemma DeliveryStep(s: Store, t: Id, origin: Origin, delivery: Id, u: Store)
    requires Emit(s, t, origin, DeliveryRecorded(delivery)) == Ok(u)
    ensures Rewrites(s, u, t) && Became(ThreadAt(u, t), ThreadAt(s, t).(latestDelivery := Some(delivery)))
  {
    hide Insert;
  }

  lemma ThreadCloses(s: Store, claim: WorkerClaim, delivery: Id, primary: Artifact, origin: Origin, u: Store)
    requires CloseThread(s, claim, delivery, primary, origin) == Ok(u)
    ensures Rewrites(s, u, claim.threadId)
    ensures var p, q := ThreadAt(s, claim.threadId), ThreadAt(u, claim.threadId);
      var run := RunAt(q, claim.runId);
      && claim.runId in p.runs && q.runs == p.runs[claim.runId := run]
      && run.state.Completed? && run.output == Some(primary) && run.error.None?
      && q.actual.Delivered? && q.attention.DeliveryReady? && q.latestDelivery == Some(delivery)
      && (p.activeRun == Some(claim.runId) ==> q.activeRun.None?)
  {
    hide Emit;
    var t, r := claim.threadId, claim.runId;
    var change := RunStateChanged(r, RunState.Running, RunState.Completed, [], Some(Some(primary)), None);
    var a := Emit(s, t, origin, DeliveryRecorded(delivery)).value;
    DeliveryStep(s, t, origin, delivery, a);
    var b := Emit(a, t, origin, change).value;
    var c := Emit(b, t, origin, ThreadStateChanged(s.threads[t].actual, ThreadState.Delivered, [])).value;
    MoveBoth(
      a, t, origin, r, RunState.Running, RunState.Completed, Some(Some(primary)), None, s.threads[t].actual,
      ThreadState.Delivered, b, c);
    AttentionStep(c, t, origin, AttentionState.DeliveryReady, u);
  }

  lemma DeliveryLeaves(
    s: Store, claim: WorkerClaim, executorKey: string, primary: Artifact, report: Artifact, summary: Artifact,
    supporting: seq<Artifact>, now: Time, t: Store)
    requires FinalizeDelivery(s, claim, executorKey, primary, report, summary, supporting, now) == Ok(t)
    ensures Delivers(s, t, claim, primary, report, summary, supporting, now)
  {
    hide CloseThread, SettleJob, Insert, DeliveryClashes, Prior, Dedup;
    var row := NextDelivery(s, claim, primary, report, summary, supporting, now);
    var origin, stream := Origin(claim.worker, now, None), DeliveryStream(row.deliveryId);
    var prepared := Log(s, stream, Some(claim.threadId), origin, DeliveryPrepared(row.version));
    var closed := CloseThread(prepared, claim, row.deliveryId, primary, origin).value;
    ThreadCloses(prepared, claim, row.deliveryId, primary, origin, closed);
    JobSettles(closed, claim.runId, Done, None, origin);
  }

  /** Presenting marks the one delivery and leaves everything else as it was. */
  lemma PresentationLeaves(s: Store, index: nat, actor: string, now: Time, t: Store)
    requires PresentDelivery(s, index, actor, now) == Ok(t)
    ensures index < |s.deliveries| && t == s.(journal := t.journal, deliveries := t.deliveries)
    ensures t.deliveries == s.deliveries[index := s.deliveries[index].(state := DeliveryState.Presented)]
    ensures s.deliveries[index].state.Presented? ==> t == s
  {
    hide Insert, NonBlank;
  }

  // =========================================================================== updates

  lemma MessageStep(s: Store, t: Id, origin: Origin, change: ThreadEvent, u: Store)
    requires change.MessageAppended? && Emit(s, t, origin, change) == Ok(u)
    ensures Rewrites(s, u, t)
    ensures Became(ThreadAt(u, t), ThreadAt(s, t).(updates := ThreadAt(s, t).updates + [ThreadUpdateProjection(
      change.updateId, change.message, change.text, change.kind, origin.actor, change.branchId, origin.at, change.task,
      change.context, change.newRun)]))
  {
    hide Insert;
  }

  lemma CreationStep(s: Store, t: Id, origin: Origin, r: Id, branch: Id, key: string, supersedes: Option<Id>, u: Store)
    requires Emit(s, t, origin, RunCreated(r, branch, key, supersedes)) == Ok(u)
    ensures Rewrites(s, u, t) && r !in ThreadAt(s, t).runs
    ensures var p, q := ThreadAt(s, t), ThreadAt(u, t);
      var run := RunAt(q, r);
      && Became(q, p.(currentBranch := branch, runs := p.runs[r := run]))
      && run == RunProjection(
        r, branch, if key == "" then "unassigned" else key, RunState.Created, 0, None, None, [], None, None, None, None,
        None, 0, None, origin.at, run.createdSequence, supersedes)
  {
    hide Insert;
  }

  lemma BindingStep(
    s: Store, t: Id, origin: Origin, r: Id, task: Artifact, agent: Artifact, context: Artifact, u: Store)
    requires Emit(s, t, origin, SnapshotsBound(r, task, agent, context)) == Ok(u)
    ensures Rewrites(s, u, t) && r in ThreadAt(s, t).runs
    ensures var p, q := ThreadAt(s, t), ThreadAt(u, t);
      && Became(q, p.(runs := p.runs[r := RunAt(q, r)]))
      && RunAt(q, r) == RunAt(p, r).(
        revision := RunAt(q, r).revision, task := Some(task), agent := Some(agent), context := Some(context))
  {
    hide Insert;
  }

  /** A Run that waits for its first claim, with the inputs it was given. */
  predicate FreshRun(
    run: RunProjection, r: Id, branch: Id, key: string, supersedes: Option<Id>, task: Option<Artifact>,
    agent: Option<Artifact>, context: Option<Artifact>, at: Time)
  {
    run == RunProjection(
      r, branch, if key == "" then "unassigned" else key, RunState.Queued, run.revision, None, None, [], None, task,
      agent, context, None, 0, None, at, run.createdSequence, supersedes)
  }

  /** A job that can be claimed from `from` on, with all its attempts left. */
  predicate FreshJob(job: SchedulerJob, r: Id, thread: Id, priority: int, from: Time, attempts: int, key: string) {
    job == SchedulerJob(
      r, thread, JobState.Queued, priority, from, 0, job.maxAttempts, key, None, 0, None, from, from)
    && job.maxAttempts == attempts
  }

  lemma BoundRunLeaves(
    s: Store, t: Id, origin: Origin, r: Id, branch: Id, key: string, supersedes: Option<Id>, task: Artifact,
    agent: Artifact, context: Artifact, a: Store, b: Store)
    requires Emit(s, t, origin, RunCreated(r, branch, key, supersedes)) == Ok(a)
    requires Emit(a, t, origin.(actor := "context-compiler"), SnapshotsBound(r, task, agent, context)) == Ok(b)
    ensures Rewrites(s, b, t) && r !in ThreadAt(s, t).runs
    ensures var p, q := ThreadAt(s, t), ThreadAt(b, t);
      var run := RunAt(q, r);
      && Became(q, p.(currentBranch := branch, runs := p.runs[r := run]))
      && run == RunProjection(
        r, branch, if key == "" then "unassigned" else key, RunState.Created, run.revision, None, None, [], None,
        Some(task), Some(agent), Some(context), None, 0, None, origin.at, run.createdSequence, supersedes)
  {
    hide Emit;
    CreationStep(s, t, origin, r, branch, key, supersedes, a);
    BindingStep(a, t, origin.(actor := "context-compiler"), r, task, agent, context, b);
  }

  lemma QueueStep(s: Store, t: Id, origin: Origin, r: Id, u: Store)
    requires Emit(s, t, origin, RunStateChanged(r, RunState.Created, RunState.Queued, [], None, None)) == Ok(u)
    ensures Rewrites(s, u, t) && r in ThreadAt(s, t).runs
    ensures var p, q := ThreadAt(s, t), ThreadAt(u, t);
      && Became(q, p.(runs := p.runs[r := RunAt(q, r)]))
      && RunAt(q, r) == RunAt(p, r).(
        state := RunState.Queued, revision := RunAt(q, r).revision, completedAt := None, waitingOn := [], error := None)
  {
    hide Emit;
    RunStep(s, t, origin, r, RunState.Created, RunState.Queued, None, None, u);
  }

  lemma QueuedRunLeaves(
    s: Store, t: Id, origin: Origin, r: Id, branch: Id, key: string, supersedes: Option<Id>, task: Artifact,
    agent: Artifact, context: Artifact, u: Store)
    requires CreateQueuedRun(
      s, t, RunCreated(r, branch, key, supersedes), SnapshotsBound(r, task, agent, context), origin) == Ok(u)
    ensures Rewrites(s, u, t) && r !in ThreadAt(s, t).runs
    ensures var p, q := ThreadAt(s, t), ThreadAt(u, t);
      && Became(q, p.(currentBranch := branch, runs := p.runs[r := RunAt(q, r)]))
      && FreshRun(RunAt(q, r), r, branch, key, supersedes, Some(task), Some(agent), Some(context), origin.at)
  {
    hide Emit;
    var a := Emit(s, t, origin, RunCreated(r, branch, key, supersedes)).value;
    var compiler, scheduler := origin.(actor := "context-compiler"), origin.(actor := "scheduler");
    var b := Emit(a, t, compiler, SnapshotsBound(r, task, agent, context)).value;
    BoundRunLeaves(s, t, origin, r, branch, key, supersedes, task, agent, context, a, b);
    QueueStep(b, t, scheduler, r, u);
  }

  /** The new Run and its job are as the submission says, and its Thread is queued with it. */
  ghost predicate Schedules(s: Store, t: Store, sub: ThreadUpdateSubmission, branch: Id) {
    var r, p, q := The(sub.newRun), ThreadAt(s, sub.threadId), ThreadAt(t, sub.threadId);
    && OnlyIn(s, t, sub.threadId) && r !in p.runs && r !in s.jobs && r in t.jobs
    && q.runs == p.runs[r := RunAt(q, r)] && t.jobs == s.jobs[r := JobAt(t, r)]
    && FreshRun(RunAt(q, r), r, branch, sub.executorKey, sub.supersedes, sub.task, sub.agent, sub.context, sub.at)
    && FreshJob(JobAt(t, r), r, sub.threadId, sub.priority, sub.at, sub.maxAttempts, sub.executorKey)
    && q.currentBranch == branch && q.branches == p.branches && q.updates == p.updates && q.desired == p.desired
    && q.actual == (if p.actual.Cancelled? || p.actual.Archived? then p.actual else ThreadState.Queued)
  }

  /** Of the Threads only this one is written. */
  ghost predicate OnlyIn(s: Store, t: Store, thread: Id) {
    thread in s.threads && thread in t.threads && t.threads == s.threads[thread := ThreadAt(t, thread)]
  }

  lemma ThreadQueues(s: Store, t: Id, origin: Origin, u: Store)
    requires t in s.threads && QueueThread(s, t, origin) == Ok(u)
    ensures Rewrites(s, u, t)
    ensures var p, q := ThreadAt(s, t), ThreadAt(u, t);
      Became(q, p.(
        actual := if p.actual.Cancelled? || p.actual.Archived? then p.actual else ThreadState.Queued,
        waitingOn := q.waitingOn))
  {
    hide Emit;
    if Requeued(s.threads[t].actual) {
      ThreadStep(s, t, origin, s.threads[t].actual, ThreadState.Queued, u);
    } else {
      SameHere(s, t);
    }
  }

  lemma JobInserted(s: Store, job: SchedulerJob, origin: Origin, u: Store)
    requires InsertJob(s, job, origin) == Ok(u)
    ensures job.runId !in s.jobs && u == s.(journal := u.journal, jobs := s.jobs[job.runId := job])
  {
    hide Insert;
  }

  lemma SchedulingLeaves(s: Store, sub: ThreadUpdateSubmission, branch: Id, t: Store)
    requires ScheduleNewRun(s, sub, branch, UpdateOrigin(sub)) == Ok(t)
    ensures Schedules(s, t, sub, branch)
  {
    hide CreateQueuedRun, QueueThread, InsertJob;
    var th, r, origin := sub.threadId, sub.newRun.value, UpdateOrigin(sub);
    var creation := RunCreated(r, branch, sub.executorKey, sub.supersedes);
    var binding := SnapshotsBound(r, sub.task.value, sub.agent.value, sub.context.value);
    var a := CreateQueuedRun(s, th, creation, binding, origin).value;
    QueuedRunLeaves(
      s, th, origin, r, branch, sub.executorKey, sub.supersedes, sub.task.value, sub.agent.value, sub.context.value, a);
    var b := QueueThread(a, th, origin.(actor := "scheduler")).value;
    ThreadQueues(a, th, origin.(actor := "scheduler"), b);
    var job := NewJob(r, th, sub.priority, sub.at, sub.maxAttempts, sub.executorKey, sub.at);
    JobInserted(b, job, origin.(actor := "scheduler"), t);
  }

  // ---------------------------------------------------------------- what it replaces

  /** The Run is cancelled if it is listed and has not ended, else it is as it was. */
  predicate CancelledIf(cancels: bool, was: RunProjection, run: RunProjection, at: Time) {
    if cancels then
      run == was.(
        state := RunState.Cancelled, revision := run.revision, completedAt := Some(at), waitingOn := [], error := None)
    else run == was
  }

  predicate WithdrawnIf(cancels: bool, was: SchedulerJob, job: SchedulerJob, at: Time) {
    if cancels && (was.state.Queued? || was.state.Claimed?) then
      job == was.(state := JobState.Cancelled, lease := None, updatedAt := at)
    else job == was
  }

  ghost predicate Replaces(p: ThreadProjection, runs: seq<Id>, r: Id) {
    r in runs && r in p.runs && !Terminal(RunAt(p, r).state)
  }

  /** What cancelling the listed Runs leaves of the Run r and of its job. */
  ghost predicate ReplacedIn(s: Store, t: Store, thread: Id, runs: seq<Id>, r: Id, at: Time) {
    var p, q := ThreadAt(s, thread), ThreadAt(t, thread);
    && (r in q.runs <==> r in p.runs) && (r in t.jobs <==> r in s.jobs)
    && (r in p.runs ==> CancelledIf(Replaces(p, runs, r), RunAt(p, r), RunAt(q, r), at))
    && (r in s.jobs ==> WithdrawnIf(Replaces(p, runs, r), JobAt(s, r), JobAt(t, r), at))
  }

  /** Of the Thread only its Runs and its active slot are written, and what every event stamps. */
  predicate OnlyRuns(p: ThreadProjection, q: ThreadProjection) {
    Became(q, p.(runs := q.runs, activeRun := q.activeRun))
  }

  lemma JobWithdrawn(s: Store, x: Id, origin: Origin)
    ensures var u := CancelJob(s, x, origin);
      if x in s.jobs && (JobAt(s, x).state.Queued? || JobAt(s, x).state.Claimed?) then
        u == s.(journal := u.journal, jobs := s.jobs[x := JobAt(s, x).(
          state := JobState.Cancelled, lease := None, updatedAt := origin.at)])
      else u == s
  {
    hide Insert, DraftOf;
  }

  lemma NothingReplaced(s: Store, thread: Id, runs: seq<Id>, r: Id, at: Time)
    requires thread in s.threads && forall x :: x in runs ==> !Replaces(ThreadAt(s, thread), runs, x)
    ensures OnlyIn(s, s, thread) && OnlyRuns(ThreadAt(s, thread), ThreadAt(s, thread))
    ensures ReplacedIn(s, s, thread, runs, r, at)
  {
    SameHere(s, thread);
  }

  lemma CancelRunLeaves(s: Store, thread: Id, x: Id, rows: seq<Id>, reason: string, origin: Origin, u: Store, r: Id)
    requires thread in s.threads && CancelRun(s, thread, x, rows, reason, origin) == Ok(u)
    ensures OnlyIn(s, u, thread) && OnlyRuns(ThreadAt(s, thread), ThreadAt(u, thread))
    ensures ReplacedIn(s, u, thread, [x], r, origin.at)
  {
    hide Emit, CancelPendingActions, Confined, CancelJob;
    var p := s.threads[thread];
    if Replaces(p, [x], x) {
      var dropped := CancelPendingActions(s, x, rows, reason, origin);
      CancelPendingConfined(s, x, rows, reason, origin);
      ActionsKeepRows(s, dropped);
      var change := RunStateChanged(x, p.runs[x].state, RunState.Cancelled, [], None, None);
      var ended := Emit(dropped, thread, origin, change).value;
      RunStep(dropped, thread, origin, x, p.runs[x].state, RunState.Cancelled, None, None, ended);
      JobWithdrawn(ended, x, origin);
    } else {
      NothingReplaced(s, thread, [x], r, origin.at);
    }
  }

  lemma {:induction false} CancelRunsLeave(
    s: Store, thread: Id, runs: seq<Id>, rows: seq<Id>, reason: string, origin: Origin, u: Store, r: Id)
    requires thread in s.threads && CancelRuns(s, thread, runs, rows, reason, origin) == Ok(u)
    ensures OnlyIn(s, u, thread) && OnlyRuns(ThreadAt(s, thread), ThreadAt(u, thread))
    ensures ReplacedIn(s, u, thread, runs, r, origin.at)
    decreases |runs|
  {
    hide CancelRun;
    if runs != [] {
      var n := |runs| - 1;
      var earlier := CancelRuns(s, thread, runs[..n], rows, reason, origin).value;
      CancelRunsLeave(s, thread, runs[..n], rows, reason, origin, earlier, r);
      CancelRunLeaves(earlier, thread, runs[n], rows, reason, origin, u, r);
      assert r in runs <==> r in runs[..n] || r == runs[n];
    }
  }

  /** Of the Thread only its Runs, its active slot and its attention are written; it stops asking for approvals
      only when none is pending. */
  ghost predicate OnlyCleared(p: ThreadProjection, t: Store, thread: Id) {
    var q := ThreadAt(t, thread);
    && Became(q, p.(runs := q.runs, activeRun := q.activeRun, attention := q.attention))
    && (q.attention != p.attention ==>
          p.attention.NeedsApproval? && q.attention.Calm? && NothingPending(t, thread))
  }

  lemma ClearingLeaves(
    s: Store, thread: Id, runs: seq<Id>, rows: seq<Id>, reason: string, origin: Origin, u: Store, r: Id)
    requires thread in s.threads && CancelForUpdate(s, thread, runs, rows, reason, origin) == Ok(u)
    ensures OnlyIn(s, u, thread) && OnlyCleared(ThreadAt(s, thread), u, thread)
    ensures ReplacedIn(s, u, thread, runs, r, origin.at)
  {
    hide CancelRuns, Emit, Replaces;
    var cancelled := CancelRuns(s, thread, runs, rows, reason, origin).value;
    CancelRunsLeave(s, thread, runs, rows, reason, origin, cancelled, r);
    if u != cancelled {
      AttentionStep(cancelled, thread, origin, AttentionState.Calm, u);
    }
  }

  /** Of the Thread a fork writes its branches only. */
  ghost predicate Forks(p: ThreadProjection, q: ThreadProjection, sub: ThreadUpdateSubmission, branch: Id) {
    && Became(q, p.(branches := q.branches, currentBranch := q.currentBranch)) && BranchesFit(p, q, sub)
    && q.currentBranch == if sub.forkedFrom.Some? then branch else p.currentBranch
  }

  /** A fork registers the current branch, selected, as the submission describes it. */
  ghost predicate BranchesFit(p: ThreadProjection, q: ThreadProjection, sub: ThreadUpdateSubmission) {
    if sub.forkedFrom.None? then q.branches == p.branches
    else
      && q.currentBranch !in p.branches && q.currentBranch in q.branches
      && var forked := Row(q.branches, q.currentBranch);
      && forked.status.Selected? && forked.forkedFrom == sub.forkedFrom && forked.reason == sub.reason
      && forked.baseRevision == sub.baseRevision && forked.forkedFromEvent == sub.forkedFromEvent
  }

  lemma ForkLeaves(s: Store, sub: ThreadUpdateSubmission, branch: Id, origin: Origin, u: Store)
    requires sub.threadId in s.threads && ForkForUpdate(s, sub, branch, origin) == Ok(u)
    ensures Rewrites(s, u, sub.threadId) && Forks(ThreadAt(s, sub.threadId), ThreadAt(u, sub.threadId), sub, branch)
  {
    hide Emit;
    var t := sub.threadId;
    if sub.forkedFrom.None? {
      SameHere(s, t);
    } else {
      var fork := BranchForked(branch, sub.forkedFrom, sub.forkedFromEvent.value, sub.baseRevision.value,
          sub.reason.value);
      var forked := Emit(s, t, origin, fork).value;
      ForkStep(s, t, origin, fork, forked);
      SelectStep(forked, t, origin, branch, u);
    }
  }

  lemma ForkStep(s: Store, t: Id, origin: Origin, fork: ThreadEvent, u: Store)
    requires fork.BranchForked? && fork.forkedFrom.Some? && Emit(s, t, origin, fork) == Ok(u)
    ensures Rewrites(s, u, t) && fork.branchId !in ThreadAt(s, t).branches
    ensures var q := ThreadAt(u, t);
      && Became(q, ThreadAt(s, t).(branches := q.branches)) && fork.branchId in q.branches
      && var branch := Row(q.branches, fork.branchId);
      && branch.forkedFrom == fork.forkedFrom && branch.reason == Some(fork.reason)
      && branch.baseRevision == Some(fork.baseRevision) && branch.forkedFromEvent == Some(fork.forkedFromEvent)
  {
    hide Insert;
  }

  lemma SelectStep(s: Store, t: Id, origin: Origin, branch: Id, u: Store)
    requires Emit(s, t, origin, BranchSelected(branch)) == Ok(u)
    ensures Rewrites(s, u, t)
    ensures var p, q := ThreadAt(s, t), ThreadAt(u, t);
      && Became(q, p.(branches := q.branches, currentBranch := branch)) && branch in p.branches && branch in q.branches
      && Row(q.branches, branch).status.Selected?
      && Row(q.branches, branch) == Row(p.branches, branch).(
        status := BranchStatus.Selected, selectedAt := Row(q.branches, branch).selectedAt)
  {
    hide Insert;
  }

  /** The message is the Thread's newest update. */
  ghost predicate Notes(p: ThreadProjection, q: ThreadProjection, sub: ThreadUpdateSubmission) {
    q.updates == p.updates + [ThreadUpdateProjection(
      sub.messageKey, sub.message, sub.text, sub.kind, sub.actor, p.currentBranch, sub.at, sub.task, sub.context,
      sub.newRun)]
  }

  /** What an applied update leaves of any Run r of the Thread and of any job r there was. */
  ghost predicate UpdateKeeps(s: Store, t: Store, thread: Id, replaced: seq<Id>, r: Id, at: Time) {
    var p, q := ThreadAt(s, thread), ThreadAt(t, thread);
    && (r in p.runs ==> r in q.runs && CancelledIf(Replaces(p, replaced, r), RunAt(p, r), RunAt(q, r), at))
    && (r in s.jobs ==> r in t.jobs && WithdrawnIf(Replaces(p, replaced, r), JobAt(s, r), JobAt(t, r), at))
  }

  /** The new Run and its job are as the submission says, on the branch it says, and the Thread is queued. */
  ghost predicate NewRunFits(s: Store, t: Store, sub: ThreadUpdateSubmission) {
    var r, p, q := The(sub.newRun), ThreadAt(s, sub.threadId), ThreadAt(t, sub.threadId);
    && Notes(p, q, sub) && BranchesFit(p, q, sub) && q.actual.Queued?
    && r !in p.runs && r in q.runs && r !in s.jobs && r in t.jobs
    && q.currentBranch == (if sub.branchId.Some? then sub.branchId.value else p.currentBranch)
    && FreshRun(
      RunAt(q, r), r, q.currentBranch, sub.executorKey, sub.supersedes, sub.task, sub.agent, sub.context, sub.at)
    && FreshJob(JobAt(t, r), r, sub.threadId, sub.priority, sub.at, sub.maxAttempts, sub.executorKey)
  }

  /** An update that starts a new Run: the message noted, what it replaces cancelled, the new Run queued. */
  ghost predicate UpdateStarts(s: Store, t: Store, sub: ThreadUpdateSubmission) {
    && OnlyIn(s, t, sub.threadId) && NewRunFits(s, t, sub)
    && forall x :: UpdateKeeps(s, t, sub.threadId, sub.supersedesRuns, x, sub.at)
  }

  /** A cancelling update: the message noted, the listed Runs cancelled, the wish and the Thread cancelled. */
  ghost predicate UpdateCancels(s: Store, t: Store, sub: ThreadUpdateSubmission, runs: seq<Id>) {
    var p, q := ThreadAt(s, sub.threadId), ThreadAt(t, sub.threadId);
    && OnlyIn(s, t, sub.threadId) && Notes(p, q, sub) && q.desired.Cancel? && q.actual.Cancelled?
    && q.runs.Keys == p.runs.Keys && t.jobs.Keys == s.jobs.Keys && q.branches == p.branches
    && forall x :: UpdateKeeps(s, t, sub.threadId, runs, x, sub.at)
  }

  lemma NewRunLeaves(s: Store, sub: ThreadUpdateSubmission, t: Store)
    requires sub.threadId in s.threads && StartNewRun(s, sub, UpdateOrigin(sub)) == Ok(t)
    ensures OnlyIn(s, t, sub.threadId)
    ensures var r, p, q := The(sub.newRun), ThreadAt(s, sub.threadId), ThreadAt(t, sub.threadId);
      var branch := TargetBranch(sub, p.currentBranch);
      && r !in p.runs && r !in s.jobs && r in t.jobs
      && q.runs == p.runs[r := RunAt(q, r)] && t.jobs == s.jobs[r := JobAt(t, r)]
      && FreshRun(RunAt(q, r), r, branch, sub.executorKey, sub.supersedes, sub.task, sub.agent, sub.context, sub.at)
      && FreshJob(JobAt(t, r), r, sub.threadId, sub.priority, sub.at, sub.maxAttempts, sub.executorKey)
      && q.currentBranch == branch && q.updates == p.updates && BranchesFit(p, q, sub)
      && q.actual == (if p.actual.Cancelled? || p.actual.Archived? then p.actual else ThreadState.Queued)
  {
    hide ForkForUpdate, ScheduleNewRun, FreshRun, FreshJob;
    var branch := TargetBranch(sub, s.threads[sub.threadId].currentBranch);
    var branched := ForkForUpdate(s, sub, branch, UpdateOrigin(sub)).value;
    ForkLeaves(s, sub, branch, UpdateOrigin(sub), branched);
    SchedulingLeaves(branched, sub, branch, t);
  }

  /** The message is noted, and nothing else of the store is written. */
  ghost predicate JustNoted(s: Store, u: Store, sub: ThreadUpdateSubmission) {
    var p, q := ThreadAt(s, sub.threadId), ThreadAt(u, sub.threadId);
    Rewrites(s, u, sub.threadId) && Became(q, p.(updates := q.updates)) && Notes(p, q, sub)
  }

  /** A cancellation records the wish, cancels the Runs and then the Thread. */
  lemma CancelParts(s: Store, th: Id, runs: seq<Id>, rows: seq<Id>, origin: Origin, t: Store)
    returns (wanted: Store, cleared: Store)
    requires CancelThread(s, th, runs, rows, origin) == Ok(t)
    ensures Rewrites(s, wanted, th) && Became(ThreadAt(wanted, th), ThreadAt(s, th).(desired := DesiredState.Cancel))
    ensures CancelForUpdate(wanted, th, runs, rows, USER_CANCELLED, origin) == Ok(cleared)
    ensures th in cleared.threads ==>
      Rewrites(cleared, t, th) && Became(ThreadAt(t, th), ThreadAt(cleared, th).(
        actual := ThreadState.Cancelled, waitingOn := ThreadAt(t, th).waitingOn))
  {
    hide Emit, CancelForUpdate;
    if s.threads[th].desired.Cancel? {
      wanted := s;
      SameHere(s, th);
    } else {
      wanted := Emit(s, th, origin, DesiredStateChanged(DesiredState.Cancel)).value;
      WishStep(s, th, origin, DesiredState.Cancel, wanted);
    }
    cleared := CancelForUpdate(wanted, th, runs, rows, USER_CANCELLED, origin).value;
    if th in cleared.threads {
      if cleared.threads[th].actual.Cancelled? {
        SameHere(cleared, th);
      } else {
        ThreadStep(cleared, th, origin, cleared.threads[th].actual, ThreadState.Cancelled, t);
      }
    }
  }

  lemma CancellingLeaves(
    s: Store, sub: ThreadUpdateSubmission, runs: seq<Id>, rows: seq<Id>, noted: Store, t: Store, x: Id)
    requires JustNoted(s, noted, sub) && CancelThread(noted, sub.threadId, runs, rows, UpdateOrigin(sub)) == Ok(t)
    ensures OnlyIn(s, t, sub.threadId)
    ensures var p, q := ThreadAt(s, sub.threadId), ThreadAt(t, sub.threadId);
      && Notes(p, q, sub) && q.desired.Cancel? && q.actual.Cancelled? && q.branches == p.branches
      && (x in q.runs <==> x in p.runs) && (x in t.jobs <==> x in s.jobs)
      && UpdateKeeps(s, t, sub.threadId, runs, x, sub.at)
  {
    hide CancelForUpdate, CancelThread, ReplacedIn, UpdateKeeps;
    var th, origin := sub.threadId, UpdateOrigin(sub);
    var wanted, cleared := CancelParts(noted, th, runs, rows, origin, t);
    ClearingLeaves(wanted, th, runs, rows, USER_CANCELLED, origin, cleared, x);
    ReplacedKeeps(s, wanted, cleared, t, th, runs, x, sub.at);
  }

  /** Neither what came before the cancelling nor what came after it touched a Run or a job. */
  lemma ReplacedKeeps(s: Store, a: Store, b: Store, t: Store, thread: Id, runs: seq<Id>, x: Id, at: Time)
    requires ReplacedIn(a, b, thread, runs, x, at)
    requires ThreadAt(a, thread).runs == ThreadAt(s, thread).runs && a.jobs == s.jobs
    requires ThreadAt(t, thread).runs == ThreadAt(b, thread).runs && t.jobs == b.jobs
    ensures UpdateKeeps(s, t, thread, runs, x, at)
    ensures (x in ThreadAt(t, thread).runs <==> x in ThreadAt(s, thread).runs) && (x in t.jobs <==> x in s.jobs)
  {
  }

  lemma WishStep(s: Store, t: Id, origin: Origin, desired: DesiredState, u: Store)
    requires Emit(s, t, origin, DesiredStateChanged(desired)) == Ok(u)
    ensures Rewrites(s, u, t) && Became(ThreadAt(u, t), ThreadAt(s, t).(desired := desired))
  {
    hide Insert;
  }

  lemma StartingLeaves(s: Store, sub: ThreadUpdateSubmission, rows: seq<Id>, noted: Store, t: Store, x: Id)
    requires JustNoted(s, noted, sub) && CancelForUpdate(
      noted, sub.threadId, sub.supersedesRuns, rows, SupersededBy(sub.kind), UpdateOrigin(sub)).Ok?
    requires !ThreadAt(s, sub.threadId).actual.Cancelled? && !ThreadAt(s, sub.threadId).actual.Archived?
    requires var cleared := Committed(noted, CancelForUpdate(
        noted, sub.threadId, sub.supersedesRuns, rows, SupersededBy(sub.kind), UpdateOrigin(sub)));
      StartNewRun(cleared, sub, UpdateOrigin(sub)) == Ok(t)
    ensures OnlyIn(s, t, sub.threadId) && NewRunFits(s, t, sub)
    ensures UpdateKeeps(s, t, sub.threadId, sub.supersedesRuns, x, sub.at)
  {
    hide CancelForUpdate, StartNewRun, SupersededBy, FreshRun, FreshJob;
    var th, origin := sub.threadId, UpdateOrigin(sub);
    var reason := SupersededBy(sub.kind);
    var cleared := CancelForUpdate(noted, th, sub.supersedesRuns, rows, reason, origin).value;
    var r := The(sub.newRun);
    ClearingLeaves(noted, th, sub.supersedesRuns, rows, reason, origin, cleared, x);
    ClearingLeaves(noted, th, sub.supersedesRuns, rows, reason, origin, cleared, r);
    NewRunLeaves(cleared, sub, t);
  }

  /** An applied update leaves what its submission says: a new queued Run in place of the ones it replaces, or a
      cancelled Thread. */
  lemma UpdateLeaves(s: Store, sub: ThreadUpdateSubmission, runs: seq<Id>, rows: seq<Id>, t: Store)
    requires ApplyThreadUpdate(s, sub, runs, rows) == Ok(t)
    ensures if sub.kind.Cancel? then UpdateCancels(s, t, sub, runs) else UpdateStarts(s, t, sub)
  {
    hide Emit, CancelThread, CancelForUpdate, StartNewRun, NonBlank, UpdateKeeps, NewRunFits, SupersededBy;
    var th, origin := sub.threadId, UpdateOrigin(sub);
    var change := MessageAppended(sub.messageKey, sub.message, sub.text, sub.kind, s.threads[th].currentBranch,
        sub.task, sub.context, sub.newRun);
    var noted := Emit(s, th, origin, change).value;
    MessageStep(s, th, origin, change, noted);
    assert JustNoted(s, noted, sub);
    forall x
      ensures sub.kind.Cancel? ==> UpdateKeeps(s, t, th, runs, x, sub.at)
      ensures sub.kind.Cancel? ==> (x in ThreadAt(t, th).runs <==> x in ThreadAt(s, th).runs)
      ensures sub.kind.Cancel? ==> (x in t.jobs <==> x in s.jobs)
      ensures !sub.kind.Cancel? ==> UpdateKeeps(s, t, th, sub.supersedesRuns, x, sub.at)
    {
      if sub.kind.Cancel? {
        CancellingLeaves(s, sub, runs, rows, noted, t, x);
      } else {
        StartingLeaves(s, sub, rows, noted, t, x);
      }
    }
    if sub.kind.Cancel? {
      CancellingLeaves(s, sub, runs, rows, noted, t, sub.messageKey);
    } else {
      StartingLeaves(s, sub, rows, noted, t, sub.messageKey);
    }
  }

  // =========================================================================== the task an update freezes

  predicate NoRepeats(items: seq<Artifact>) {
    forall i, j :: 0 <= i < j < |items| ==> items[i] != items[j]
  }

  /** Where x first occurs. */
  function FirstAt(items: seq<Artifact>, x: Artifact): nat {
    if items == [] then 0
    else
      var earlier := items[..|items| - 1];
      if x in earlier then FirstAt(earlier, x) else |earlier|
  }

  /** The same items, once each, in the order of their first occurrences. */
  ghost predicate OnceEach(items: seq<Artifact>, once: seq<Artifact>) {
    && NoRepeats(once) && (forall x :: x in once <==> x in items)
    && forall i, j :: 0 <= i < j < |once| ==> FirstAt(items, once[i]) < FirstAt(items, once[j])
  }

  lemma {:induction false} FirstWithin(items: seq<Artifact>, x: Artifact)
    requires x in items
    ensures FirstAt(items, x) < |items|
    decreases |items|
  {
    var earlier := items[..|items| - 1];
    if x in earlier {
      FirstWithin(earlier, x);
    }
  }

  lemma {:induction false} DedupIsOnceEach(items: seq<Artifact>)
    ensures OnceEach(items, Dedup(items))
    decreases |items|
  {
    if items != [] {
      var n := |items| - 1;
      var earlier, once := Dedup(items[..n]), Dedup(items);
      DedupIsOnceEach(items[..n]);
      forall x
        ensures x in once <==> x in items
      {
        DedupKeeps(items, x);
      }
      forall i, j | 0 <= i < j < |once|
        ensures FirstAt(items, once[i]) < FirstAt(items, once[j])
      {
        assert once[i] == earlier[i] && earlier[i] in items[..n];
        if j < |earlier| {
          assert earlier[j] in items[..n];
        } else {
          FirstWithin(items[..n], once[i]);
        }
      }
    }
  }

  /** The words of a change: a new objective, or one more constraint. Criteria and earlier constraints stay, and
      the message's text joins the inputs. */
  ghost predicate Revises(
    objective: string, criteria: seq<string>, constraints: seq<string>, inputs: seq<Artifact>, after: TaskSnapshot,
    text: Artifact, words: string, kind: UpdateKind)
  {
    && after.objective == (if kind.GoalChange? then words else objective)
    && after.acceptanceCriteria == criteria
    && constraints <= after.constraints
    && (if kind.MethodChange? then after.constraints[|constraints|..] == ["User-selected method change: " + words]
        else after.constraints == constraints)
    && OnceEach(inputs + [text], after.inputs)
  }

  /** The task frozen for a Run that goes on from `before`; a Thread without a task starts from its title. */
  ghost predicate Carries(
    p: ThreadProjection, before: Option<Artifact>, after: Option<Artifact>, text: Artifact, words: string,
    kind: UpdateKind)
  {
    match before
    case None =>
      && after.Some? && after.value.TaskArtifact?
      && Revises(p.title, [], [], [], after.value.task, text, words, kind)
    case Some(earlier) =>
      && after.Some? && after.value.TaskArtifact? && earlier.TaskArtifact?
      && (if kind.GoalChange? || kind.MethodChange? then
            && after.value.task.taskId == earlier.task.taskId
            && Revises(
              earlier.task.objective, earlier.task.acceptanceCriteria, earlier.task.constraints, earlier.task.inputs,
              after.value.task, text, words, kind)
          else after.value == earlier)
  }

  function TaskBefore(p: ThreadProjection, basis: Option<Id>): Option<Artifact> {
    if basis.Some? && basis.value in p.runs then p.runs[basis.value].task else None
  }

  /** What preparing an update freezes as the new Run's task. */
  lemma UpdateFreezes(
    p: ThreadProjection, ids: seq<Id>, record: InboxRecord, text: string, kind: UpdateKind, agent: Artifact, at: Time,
    sub: ThreadUpdateSubmission)
    requires PrepareUpdate(Some(p), ids, record, text, kind, agent, at) == Ok(sub) && !kind.Cancel?
    ensures Carries(p, TaskBefore(p, sub.supersedes), sub.task, record.text, Strip(text), kind)
  {
    hide Basis, ContextFor, Superseded, Dedup, Strip, OnceEach, ExecutorKeyFor;
    var before := TaskBefore(p, sub.supersedes);
    var inputs := if before.Some? && before.value.TaskArtifact? then before.value.task.inputs else [];
    DedupIsOnceEach(inputs + [record.text]);
  }

  /** The context frozen with it: the earlier items, in order of their ordinals, and one behind them with the
      message's text. */
  ghost predicate ContextCarries(
    before: seq<ContextItem>, context: Artifact, task: Artifact, agent: Artifact, record: InboxRecord, kind: UpdateKind)
  {
    && context.ContextArtifact?
    && var manifest := context.manifest;
    && manifest.task == task && manifest.agent == agent && Increasing(manifest.items) && manifest.items != []
    && var n := |manifest.items| - 1;
    && multiset(manifest.items[..n]) == multiset(before)
    && manifest.items[n] == ContextItem(
      manifest.items[n].ordinal, "thread_update", record.messageKey, record.text, "direct", "normal", Some(kind))
  }

  /** Where the new Run goes and what drives it. */
  ghost predicate Plans(
    p: ThreadProjection, record: InboxRecord, kind: UpdateKind, agent: Artifact, at: Time,
    sub: ThreadUpdateSubmission)
  {
    && sub.threadId == p.threadId && sub.expectedRevision == p.revision && sub.kind == kind && sub.at == at
    && sub.messageKey == record.messageKey && sub.message == record.message && sub.text == record.text
    && sub.newRun == Some(UpdateRunOf(record.messageKey)) && sub.priority == 0 && sub.maxAttempts == 3
    && (if kind.MethodChange? then
          && sub.branchId == Some(BranchOf(record.messageKey)) && sub.forkedFrom == Some(p.currentBranch)
          && sub.forkedFromEvent == Some(p.lastEvent) && sub.baseRevision == Some(p.revision)
          && sub.reason == Some("user_method_change")
        else sub.branchId == Some(p.currentBranch) && sub.forkedFrom.None?)
    && match sub.supersedes
    case None => sub.agent == Some(agent) && sub.executorKey == "unassigned"
    case Some(b) =>
      && b in p.runs && sub.agent == Some(if RunAt(p, b).agent.Some? then RunAt(p, b).agent.value else agent)
      && sub.executorKey == (match RunAt(p, b).task
           case Some(TaskArtifact(task)) => if task.workflowId != "" then task.workflowId else RunAt(p, b).executorKey
           case _ => RunAt(p, b).executorKey)
  }

  lemma UpdatePlans(
    p: ThreadProjection, ids: seq<Id>, record: InboxRecord, text: string, kind: UpdateKind, agent: Artifact, at: Time,
    sub: ThreadUpdateSubmission)
    requires PrepareUpdate(Some(p), ids, record, text, kind, agent, at) == Ok(sub) && !kind.Cancel?
    ensures Plans(p, record, kind, agent, at, sub)
  {
    hide Basis, ContextFor, Superseded, RevisedTask, Strip;
  }

  lemma ContextFreezes(
    p: ThreadProjection, ids: seq<Id>, record: InboxRecord, text: string, kind: UpdateKind, agent: Artifact, at: Time,
    sub: ThreadUpdateSubmission)
    requires PrepareUpdate(Some(p), ids, record, text, kind, agent, at) == Ok(sub) && !kind.Cancel?
    ensures Executable(sub)
    ensures ContextCarries(
      ItemsBefore(p, sub.supersedes), The(sub.context), The(sub.task), The(sub.agent), record, kind)
  {
    hide Basis, TaskFor, ContextFor, Superseded, Strip, AgentFor, ContextCarries;
    var id := Basis(p, ids);
    var basis := if id.Some? then Some(p.runs[id.value]) else None;
    NewContextCarries(basis, record, sub.task.value, sub.agent.value, kind, at, sub.context.value);
  }

  function ItemsBefore(p: ThreadProjection, basis: Option<Id>): seq<ContextItem> {
    if basis.Some? && basis.value in p.runs then ItemsOf(p.runs[basis.value].context) else []
  }

  lemma NewContextCarries(
    basis: Option<RunProjection>, record: InboxRecord, task: Artifact, agent: Artifact, kind: UpdateKind, at: Time,
    context: Artifact)
    requires ContextFor(basis, record, task, agent, kind, at) == Ok(context)
    ensures ContextCarries(if basis.Some? then ItemsOf(basis.value.context) else [], context, task, agent, record, kind)
  {
    hide PutContext, MaxOrdinal;
    var items := BaseItems(basis).value;
    var item := UpdateItem(items, record, kind);
    ItemAddedLast(ContextManifest(task, agent, items + [item], "thread-update-context-v1", at), items, item);
  }

  /** An item numbered behind all others is stored behind all others. */
  lemma ItemAddedLast(manifest: ContextManifest, items: seq<ContextItem>, item: ContextItem)
    requires manifest.items == items + [item] && item.ordinal == MaxOrdinal(items) + 1 && PutContext(manifest).Ok?
    ensures PutContext(manifest).value.ContextArtifact?
    ensures var stored := PutContext(manifest).value.manifest;
      && stored == manifest.(items := stored.items) && Increasing(stored.items) && stored.items != []
      && stored.items[|stored.items| - 1] == item
      && multiset(stored.items[..|stored.items| - 1]) == multiset(items)
  {
    PutContextIff(manifest);
    var stored := PutContext(manifest).value.manifest.items;
    assert PutContext(manifest).value == ContextArtifact(manifest.(items := stored));
    hide PutContext;
    SameLength(stored, manifest.items);
    var n := |stored| - 1;
    LargestIsLast(stored, items, item);
    assert manifest.items[..n] == items && manifest.items[n] == item;
    DropSameLast(stored, manifest.items);
  }

  lemma LargestIsLast(stored: seq<ContextItem>, items: seq<ContextItem>, item: ContextItem)
    requires Increasing(stored) && multiset(stored) == multiset(items + [item])
    requires stored != [] && item.ordinal == MaxOrdinal(items) + 1
    ensures stored[|stored| - 1] == item
  {
    var n := |stored| - 1;
    assert item in multiset(stored) && stored[n] in multiset(items + [item]);
    if stored[n] != item {
      assert stored[n] in items;
      var i :| 0 <= i < |items| && items[i] == stored[n];
      MaxOrdinalBounds(items, i);
    }
  }

  // ---------------------------------------------------------------- in the store

  /** The new Run waits, with a task and a context that go on from those of the Run it supersedes. */
  ghost predicate Continues(
    s: Store, t: Store, thread: Id, record: InboxRecord, words: string, kind: UpdateKind)
  {
    var p, q, r := ThreadAt(s, thread), ThreadAt(t, thread), UpdateRunOf(record.messageKey);
    var run := RunAt(q, r);
    && thread in s.threads && thread in t.threads && r !in p.runs && r in q.runs && run.state.Queued?
    && Carries(p, TaskBefore(p, run.supersedes), run.task, record.text, words, kind)
    && run.context.Some? && run.agent.Some?
    && ContextCarries(
      ItemsBefore(p, run.supersedes), run.context.value, The(run.task), run.agent.value, record, kind)
  }

  /** What a settled update message leaves: its Thread cancelled, or a new Run that goes on as the message asks. */
  ghost predicate Effect(s: Store, t: Store, record: InboxRecord, words: string, kind: UpdateKind) {
    && record.threadId.Some? && record.threadId.value in t.threads
    && (if kind.Cancel? then ThreadAt(t, record.threadId.value).actual.Cancelled?
        else Continues(s, t, record.threadId.value, record, words, kind))
  }

  lemma AppliedToCurrent(
    s: Store, p: ThreadProjection, ids: seq<Id>, record: InboxRecord, text: string, kind: UpdateKind, agent: Artifact,
    at: Time, sub: ThreadUpdateSubmission, rows: seq<Id>, t: Store)
    requires Faithful(s) && Genuine(s, p)
    requires PrepareUpdate(Some(p), ids, record, text, kind, agent, at) == Ok(sub)
    requires ApplyThreadUpdate(s, sub, ids, rows) == Ok(t)
    ensures Effect(s, t, record, Strip(text), kind)
  {
    hide Faithful, Genuine, PrepareUpdate, ApplyThreadUpdate, Carries, ContextCarries, Strip, UpdateKeeps,
      BranchesFit;
    PreparedTarget(p, ids, record, text, kind, agent, at, sub);
    AdmittedFacts(s, sub, ids, rows);
    SeenIsCurrent(s, p);
    UpdateLeaves(s, sub, ids, rows, t);
    if !kind.Cancel? {
      UpdateFreezes(p, ids, record, text, kind, agent, at, sub);
      ContextFreezes(p, ids, record, text, kind, agent, at, sub);
    }
  }

  lemma AppliedUpdate(
    s: Store, u: Store, seen: Option<ThreadProjection>, ids: seq<Id>, record: InboxRecord, text: string,
    kind: UpdateKind, agent: Artifact, at: Time, sub: ThreadUpdateSubmission, rows: seq<Id>, t: Store)
    requires GoodRead(s, seen, ids) && Noted(s, u)
    requires PrepareUpdate(seen, ids, record, text, kind, agent, at) == Ok(sub)
    requires ApplyThreadUpdate(u, sub, ids, rows) == Ok(t)
    ensures Effect(s, t, record, Strip(text), kind)
  {
    hide AgreeInv, Replay, Lists, PrepareRun, ApplyThreadUpdate, Carries, ContextCarries, Strip, Sequenced,
      SchedulerInv, ActionsInv, ResourcesInv;
    assert seen.Some? && Genuine(u, seen.value);
    AppliedToCurrent(u, seen.value, ids, record, text, kind, agent, at, sub, rows, t);
  }

  function WishedKind(kind: Option<UpdateKind>): UpdateKind {
    if kind.Some? then kind.value else UpdateKind.Supplement
  }

  /** A confirmed update message has its effect, whenever its Thread was read. */
  lemma AcceptedUpdate(
    s: Store, message: InboxMessage, route: InboxRoute, project: string, agent: Artifact,
    seen: Option<ThreadProjection>, ids: seq<Id>, rows: seq<Id>, now: Time, t: Store)
    requires Reached(s) && GoodRead(s, seen, ids) && KeyOf(message) !in s.inbox
    requires route.routeType.ThreadUpdate? && !route.requiresConfirmation
    requires Accept(s, message, route, project, agent, seen, ids, rows, now) == Ok(t)
    ensures Effect(
      s, t, NewRecord(message, route, project), Strip(route.taskText), WishedKind(route.updateKind))
  {
    hide Reached, OpenInv, AgreeInv, GoodRead, LogAcceptance, PrepareUpdate, ApplyThreadUpdate, Strip, Effect, Noted,
      PrepareTask, SubmitTask, ValidAcceptance, DeliveryInv, InboxInv;
    ReachedIsClosed(s);
    var record, kind := NewRecord(message, route, project), WishedKind(route.updateKind);
    var u := LogAcceptance(s, record).(inbox := s.inbox[record.messageKey := record]);
    var sub := PrepareUpdate(seen, ids, record, route.taskText, kind, agent, message.createdAt).value;
    AcceptedNoted(s, record);
    AppliedUpdate(s, u, seen, ids, record, route.taskText, kind, agent, message.createdAt, sub, rows, t);
  }

  /** A proposed route that its sender sends to a Thread has the same effect. */
  lemma ResolvedUpdate(
    s: Store, stored: InboxRecord, platform: string, actor: string, target: Option<Id>, kind: Option<UpdateKind>,
    reason: string, agent: Artifact, seen: Option<ThreadProjection>, ids: seq<Id>, rows: seq<Id>, now: Time, t: Store)
    requires Reached(s) && GoodRead(s, seen, ids)
    requires stored.routeState.Proposed? && Row(s.inbox, stored.messageKey).routeState.Proposed?
    requires ResolveRoute(
      s, stored, platform, actor, ToThread, target, kind, reason, agent, seen, ids, rows, now) == Ok(t)
    ensures Effect(s, t, stored.(threadId := target), Strip(TextOf(stored.text)), KindOf(kind, stored.updateKind))
  {
    hide Reached, OpenInv, AgreeInv, GoodRead, PrepareUpdate, ApplyThreadUpdate, Strip, Noted, InboxLog,
      ValidResolution, DeliveryInv, InboxInv, SameInbound, Resolved, Carries;
    ReachedIsClosed(s);
    var resolver, chosen := platform + ":" + actor, KindOf(kind, stored.updateKind);
    var record := stored.(
      requiresConfirmation := false, updatedAt := now, resolvedBy := Some(resolver), resolutionReason := Some(reason),
      routeType := RouteType.ThreadUpdate, routeState := RouteState.Corrected, threadId := target,
      updateKind := Some(chosen));
    var event := RouteResolved(record.routeType, record.routeState);
    var origin, row := Origin(resolver, now, Some(stored.messageKey)), s.inbox[stored.messageKey];
    var settled := Resolved(row, record, resolver, reason);
    var u := InboxLog(s, record, origin, event).(inbox := s.inbox[stored.messageKey := settled]);
    var sub := PrepareUpdate(seen, ids, record, TextOf(stored.text), chosen, agent, now).value;
    ResolvedNoted(s, record, origin, event, settled);
    AppliedUpdate(s, u, seen, ids, record, TextOf(stored.text), chosen, agent, now, sub, rows, t);
  }

  // =========================================================================== submission

  /** A batch is its events one after the other. */
  lemma LastDraft(s: Store, t: Id, drafts: seq<Draft>, last: Draft, u: Store) returns (a: Store)
    requires EmitDrafts(s, t, drafts + [last]) == Ok(u)
    ensures EmitDrafts(s, t, drafts) == Ok(a) && EmitDraft(a, t, last) == Ok(u)
  {
    hide EmitDraft;
    assert (drafts + [last])[..|drafts|] == drafts;
    a := EmitDrafts(s, t, drafts).value;
  }

  /** From s to u the journal gained exactly these drafts, in order. */
  ghost predicate Appended(s: Store, u: Store, drafts: seq<Draft>) {
    && s.journal <= u.journal && |u.journal| == |s.journal| + |drafts|
    && forall i :: 0 <= i < |drafts| ==> SameContent(drafts[i], u.journal[|s.journal| + i])
  }

  lemma {:induction false} BatchAppends(s: Store, thread: Id, drafts: seq<Draft>, u: Store)
    requires EmitDrafts(s, thread, drafts) == Ok(u)
    ensures Appended(s, u, drafts) && u == s.(journal := u.journal, threads := u.threads)
    ensures forall t :: t in s.threads && t != thread ==> t in u.threads && ThreadAt(u, t) == ThreadAt(s, t)
    decreases |drafts|
  {
    hide EmitDraft, SameContent;
    if drafts != [] {
      var earlier := EmitDrafts(s, thread, drafts[..|drafts| - 1]).value;
      BatchAppends(s, thread, drafts[..|drafts| - 1], earlier);
      DraftAppends(earlier, thread, drafts[|drafts| - 1], u);
    }
  }

  lemma DraftAppends(s: Store, thread: Id, draft: Draft, u: Store)
    requires EmitDraft(s, thread, draft) == Ok(u)
    ensures s.journal <= u.journal && |u.journal| == |s.journal| + 1 && SameContent(draft, u.journal[|s.journal|])
    ensures u == s.(journal := u.journal, threads := s.threads[thread := ThreadAt(u, thread)])
  {
    hide Reduce, LastSequence;
  }

  /** A batch read at the stored revision is appended as it is; one that is there already changes nothing. */
  lemma BatchLeaves(s: Store, thread: Id, drafts: seq<Draft>, expectedRevision: nat, t: Store)
    requires AppendThreadEvents(s, thread, drafts, expectedRevision) == Ok(t)
    ensures AllRecorded(s.journal, drafts) ==> t == s && AllUnaltered(s.journal, drafts)
    ensures !AllRecorded(s.journal, drafts) ==>
      && Appended(s, t, drafts) && t == s.(journal := t.journal, threads := t.threads)
      && !AnyRecorded(s.journal, drafts)
      && expectedRevision == (if thread in s.threads then ThreadAt(s, thread).revision else 0)
      && forall other :: other in s.threads && other != thread ==> ThreadAt(t, other) == ThreadAt(s, other)
  {
    hide EmitDrafts, AllRecorded, AnyRecorded, AllUnaltered, IdRepeats, Appended;
    if !AllRecorded(s.journal, drafts) {
      BatchAppends(s, thread, drafts, t);
    }
  }

  /** The submitted Thread as it is stored: one queued Run on one branch, nothing decided yet. */
  predicate NewThreadFits(q: ThreadProjection, sub: TaskSubmission, now: Time) {
    && q.threadId == sub.threadId && q.projectId == sub.projectId && q.title == sub.title && q.desired.Run?
    && q.attention.Calm? && q.activeRun.None? && q.latestDelivery.None?
    && q.currentBranch == sub.branchId && q.branches == map[] && q.updates == [] && q.createdAt == now
  }

  lemma ThreadOpens(s: Store, sub: TaskSubmission, now: Time, drafts: seq<Draft>, u: Store)
    requires sub.threadId !in s.threads
    requires |SubmissionDrafts(sub, now)| >= 2 && drafts == SubmissionDrafts(sub, now)[..2]
    requires EmitDrafts(s, sub.threadId, drafts) == Ok(u)
    ensures u == s.(journal := u.journal, threads := u.threads) && sub.threadId in u.threads
    ensures var q := ThreadAt(u, sub.threadId);
      && u.threads == s.threads[sub.threadId := q] && q.actual.Created? && NewThreadFits(q, sub, now)
      && q.runs == map[sub.runId := RunAt(q, sub.runId)]
      && RunAt(q, sub.runId) == RunProjection(
        sub.runId, sub.branchId, if sub.executorKey == "" then "unassigned" else sub.executorKey, RunState.Created, 0,
        None, None, [], None, None, None, None, None, 0, None, now, RunAt(q, sub.runId).createdSequence, None)
  {
    var t, owner := sub.threadId, Origin(sub.actor, now, sub.correlation);
    var first := ThreadCreated(sub.projectId, sub.title, DesiredState.Run, sub.branchId);
    var second := RunCreated(sub.runId, sub.branchId, sub.executorKey, None);
    assert drafts == [ThreadDraft(t, owner, first)] + [ThreadDraft(t, owner, second)];
    hide SubmissionDrafts, EmitDraft;
    assert [ThreadDraft(t, owner, first)] == [] + [ThreadDraft(t, owner, first)];
    var a := LastDraft(s, t, [ThreadDraft(t, owner, first)], ThreadDraft(t, owner, second), u);
    var none := LastDraft(s, t, [], ThreadDraft(t, owner, first), a);
    OpeningStep(s, t, owner, first, a);
    assert Emit(a, t, owner, second) == Ok(u);
    CreationStep(a, t, owner, sub.runId, sub.branchId, sub.executorKey, None, u);
  }

  lemma OpeningStep(s: Store, t: Id, origin: Origin, change: ThreadEvent, u: Store)
    requires t !in s.threads && change.ThreadCreated? && EmitDraft(s, t, ThreadDraft(t, origin, change)) == Ok(u)
    ensures u == s.(journal := u.journal, threads := s.threads[t := ThreadAt(u, t)]) && t in u.threads
    ensures var q := ThreadAt(u, t);
      q == ThreadProjection(
        t, change.projectId, change.title, change.desired, ThreadState.Created, AttentionState.Calm, q.revision,
        change.branchId, None, [], None, q.lastEvent, origin.at, origin.at, map[], map[], [])
  {
    hide Insert;
  }

  /** A submission stores its Thread, one queued Run with the inputs it came with, and its job; a repeat of it
      changes nothing. */
  ghost predicate Submits(s: Store, t: Store, sub: TaskSubmission, now: Time) {
    var q := ThreadAt(t, sub.threadId);
    && sub.threadId in t.threads && t.threads == s.threads[sub.threadId := q] && NewThreadFits(q, sub, now)
    && q.actual.Queued? && q.runs == map[sub.runId := RunAt(q, sub.runId)]
    && FreshRun(
      RunAt(q, sub.runId), sub.runId, sub.branchId, sub.executorKey, None, sub.task, sub.agent, sub.context, now)
    && sub.runId !in s.jobs && sub.runId in t.jobs && t.jobs == s.jobs[sub.runId := JobAt(t, sub.runId)]
    && FreshJob(
      JobAt(t, sub.runId), sub.runId, sub.threadId, sub.priority, now, sub.maxAttempts, sub.executorKey)
  }

  /** The Thread with its Run created and, if inputs came with it, bound. */
  ghost predicate OpenedFor(s: Store, u: Store, sub: TaskSubmission, now: Time) {
    var q := ThreadAt(u, sub.threadId);
    var run := RunAt(q, sub.runId);
    && u == s.(journal := u.journal, threads := s.threads[sub.threadId := q]) && sub.threadId in u.threads
    && q.actual.Created? && NewThreadFits(q, sub, now) && q.runs == map[sub.runId := run]
    && run == RunProjection(
      sub.runId, sub.branchId, if sub.executorKey == "" then "unassigned" else sub.executorKey, RunState.Created,
      run.revision, None, None, [], None, sub.task, sub.agent, sub.context, None, 0, None, now, run.createdSequence,
      None)
  }

  lemma DraftsOpen(s: Store, sub: TaskSubmission, now: Time, drafts: seq<Draft>, u: Store)
    requires sub.threadId !in s.threads && sub.task.Some? == sub.agent.Some? == sub.context.Some?
    requires drafts == SubmissionDrafts(sub, now)[..|SubmissionDrafts(sub, now)| - 2]
    requires EmitDrafts(s, sub.threadId, drafts) == Ok(u)
    ensures OpenedFor(s, u, sub, now)
  {
    hide EmitDraft, EmitDrafts;
    var t, r, two := sub.threadId, sub.runId, SubmissionDrafts(sub, now)[..2];
    if sub.task.Some? {
      var compiler := Origin("context-compiler", now, sub.correlation);
      var bind := ThreadDraft(t, compiler, SnapshotsBound(r, sub.task.value, sub.agent.value, sub.context.value));
      assert drafts == two + [bind];
      var a := LastDraft(s, t, two, bind, u);
      assert Emit(a, t, compiler, bind.body.thread) == Ok(u);
      hide SubmissionDrafts, Emit, ThreadDraft;
      ThreadOpens(s, sub, now, two, a);
      BindingStep(a, t, compiler, r, sub.task.value, sub.agent.value, sub.context.value, u);
    } else {
      assert drafts == two;
      hide SubmissionDrafts;
      ThreadOpens(s, sub, now, two, u);
    }
  }

  /** The last two events of a submission queue the Run and wake the Thread. */
  lemma DraftsClose(s: Store, sub: TaskSubmission, now: Time, u: Store)
    returns (early: seq<Draft>, b: Store, c: Store)
    requires EmitDrafts(s, sub.threadId, SubmissionDrafts(sub, now)) == Ok(u)
    ensures var drafts, scheduler := SubmissionDrafts(sub, now), Origin("scheduler", now, sub.correlation);
      && early == drafts[..|drafts| - 2] && EmitDrafts(s, sub.threadId, early) == Ok(b)
      && Emit(
           b, sub.threadId, scheduler,
           RunStateChanged(sub.runId, RunState.Created, RunState.Queued, [], None, None)) == Ok(c)
      && Emit(c, sub.threadId, scheduler, ThreadStateChanged(ThreadState.Created, ThreadState.Queued, [])) == Ok(u)
  {
    hide EmitDraft, EmitDrafts;
    var t, drafts, scheduler := sub.threadId, SubmissionDrafts(sub, now), Origin("scheduler", now, sub.correlation);
    var queueing := RunStateChanged(sub.runId, RunState.Created, RunState.Queued, [], None, None);
    var queue := ThreadDraft(t, scheduler, queueing);
    var wake := ThreadDraft(t, scheduler, ThreadStateChanged(ThreadState.Created, ThreadState.Queued, []));
    early := drafts[..|drafts| - 2];
    assert drafts == early + [queue] + [wake];
    c := LastDraft(s, t, early + [queue], wake, u);
    b := LastDraft(s, t, early, queue, c);
  }

  lemma DraftsQueue(s: Store, sub: TaskSubmission, now: Time, u: Store)
    requires sub.threadId !in s.threads && EmitDrafts(s, sub.threadId, SubmissionDrafts(sub, now)) == Ok(u)
    requires sub.task.Some? == sub.agent.Some? == sub.context.Some?
    ensures u == s.(journal := u.journal, threads := u.threads) && sub.threadId in u.threads
    ensures var q := ThreadAt(u, sub.threadId);
      && u.threads == s.threads[sub.threadId := q] && q.actual.Queued? && NewThreadFits(q, sub, now)
      && q.runs == map[sub.runId := RunAt(q, sub.runId)]
      && FreshRun(
        RunAt(q, sub.runId), sub.runId, sub.branchId, sub.executorKey, None, sub.task, sub.agent, sub.context, now)
  {
    var t, r, scheduler := sub.threadId, sub.runId, Origin("scheduler", now, sub.correlation);
    hide EmitDrafts, SubmissionDrafts, Emit;
    var early, b, c := DraftsClose(s, sub, now, u);
    DraftsOpen(s, sub, now, early, b);
    QueueStep(b, t, scheduler, r, c);
    ThreadStep(c, t, scheduler, ThreadState.Created, ThreadState.Queued, u);
  }

  lemma SubmissionLeaves(s: Store, sub: TaskSubmission, now: Time, t: Store)
    requires SubmitTask(s, sub, now) == Ok(t)
    ensures if sub.threadId in s.threads then t == s else Submits(s, t, sub, now)
  {
    hide EmitDrafts, SubmissionDrafts, SameSubmission, NonBlank, InsertJob, NewThreadFits, FreshRun;
    if sub.threadId !in s.threads {
      var created := EmitDrafts(s, sub.threadId, SubmissionDrafts(sub, now)).value;
      DraftsQueue(s, sub, now, created);
      var job := NewJob(sub.runId, sub.threadId, sub.priority, now, sub.maxAttempts, sub.executorKey, now);
      JobInserted(created, job, Origin("scheduler", now, sub.correlation), t);
    }
  }

  // =========================================================================== messages

  /** The record of a message: what it said, and what was decided about it. */
  predicate RecordFits(row: InboxRecord, message: InboxMessage, route: InboxRoute, project: string) {
    && row.messageKey == Lit(message.platform + ":" + message.messageId) && row.payloadHash == message.payloadHash
    && row.platform == message.platform && row.messageId == message.messageId && row.chatId == message.chatId
    && row.actorId == message.actorId && row.projectId == project && row.text == Blob(message.text)
    && row.message == EnvelopeArtifact(row.messageKey, row.text, message.createdAt)
    && row.routeType == route.routeType && row.domain == route.domain && row.candidates == route.candidates
    && row.updateKind == route.updateKind && row.requiresConfirmation == route.requiresConfirmation
    && (row.routeState.Proposed? <==> route.requiresConfirmation)
    && (row.routeState.Confirmed? <==> !route.requiresConfirmation)
    && row.threadId == (if route.routeType.NewTask? then Some(ThreadOf(row.messageKey)) else route.target)
    && row.createdAt == message.createdAt && row.resolvedBy.None?
  }

  lemma NewRecordFits(message: InboxMessage, route: InboxRoute, project: string)
    ensures var record := NewRecord(message, route, project);
      && RecordFits(record, message, route, project) && record.messageKey == KeyOf(message)
      && record.routeState == (if route.requiresConfirmation then RouteState.Proposed else RouteState.Confirmed)
  {
  }

  /** A new message is recorded as it came; with an open route nothing else happens; a repeat changes nothing. */
  lemma MessageRecorded(
    s: Store, message: InboxMessage, route: InboxRoute, project: string, agent: Artifact,
    seen: Option<ThreadProjection>, ids: seq<Id>, rows: seq<Id>, now: Time, t: Store)
    requires Accept(s, message, route, project, agent, seen, ids, rows, now) == Ok(t)
    ensures var key := Lit(message.platform + ":" + message.messageId);
      if key in s.inbox then t == s
      else
        && key in t.inbox && t.inbox == s.inbox[key := Row(t.inbox, key)]
        && RecordFits(Row(t.inbox, key), message, route, project)
        && (route.requiresConfirmation ==> t == s.(journal := t.journal, inbox := t.inbox))
  {
    hide LogAcceptance, PrepareUpdate, ApplyThreadUpdate, Strip, PrepareTask, SubmitTask, Tally, SameInbound,
      NewRecord, RecordFits;
    NewRecordFits(message, route, project);
    var record := NewRecord(message, route, project);
    var u := LogAcceptance(s, record).(inbox := s.inbox[record.messageKey := record]);
    LogAcceptanceKeeps(s, record);
    if record.messageKey !in s.inbox {
      if route.routeType.NewTask? {
        var task := PrepareTask(record, OrElse(route.taskText, Strip(message.text)), agent).value;
        SubmissionKeepsInbox(u, task, now, t);
      } else if route.routeType.ThreadUpdate? && record.routeState.Confirmed? {
        var kind := WishedKind(route.updateKind);
        var sub := PrepareUpdate(seen, ids, record, route.taskText, kind, agent, message.createdAt).value;
        UpdateTally(u, sub, ids, rows, record.messageKey, AnEffect);
      }
    }
  }

  lemma SubmissionKeepsInbox(s: Store, sub: TaskSubmission, now: Time, t: Store)
    requires SubmitTask(s, sub, now) == Ok(t)
    ensures t.inbox == s.inbox
  {
    hide SubmitTask, Tally;
    if sub.threadId in s.threads {
      SubmitAgain(s, sub, now);
    } else {
      SubmitTally(s, sub, now, sub.threadId, AnEffect);
    }
  }

  /** A settled route keeps the message as it came and says who decided what, and why. */
  lemma RouteSettled(
    s: Store, record: InboxRecord, resolver: string, reason: string, task: Option<TaskSubmission>,
    update: Option<ThreadUpdateSubmission>, ids: seq<Id>, rows: seq<Id>, t: Store)
    requires ResolveInboxRoute(s, record, resolver, reason, task, update, ids, rows) == Ok(t)
    ensures record.messageKey in s.inbox
    ensures var was := Row(s.inbox, record.messageKey);
      if !was.routeState.Proposed? then t == s
      else
        && t.inbox == s.inbox[record.messageKey := was.(
             routeType := record.routeType, routeState := record.routeState, threadId := record.threadId,
             domain := record.domain, requiresConfirmation := false, updateKind := record.updateKind,
             candidates := record.candidates, updatedAt := record.updatedAt, resolvedBy := Some(resolver),
             resolutionReason := Some(reason))]
        && !record.routeState.Proposed? && resolver == was.platform + ":" + was.actorId
        && (task.None? && update.None? ==> t == s.(journal := t.journal, inbox := t.inbox))
  {
    hide Log, ApplyThreadUpdate, SubmitTask, Tally, NonBlank, SameInbound, SameResolution;
    var key := record.messageKey;
    if s.inbox[key].routeState.Proposed? {
      var origin := Origin(resolver, record.updatedAt, Some(key));
      var event := RouteResolved(record.routeType, record.routeState);
      LogKeepsTables(s, InboxStream(key), record.threadId, origin, OfInbox(event));
      var u := InboxLog(s, record, origin, event)
        .(inbox := s.inbox[key := Resolved(s.inbox[key], record, resolver, reason)]);
      if task.Some? {
        SubmissionKeepsInbox(u, task.value, record.updatedAt, t);
      } else if update.Some? {
        UpdateTally(u, update.value, ids, rows, key, AnEffect);
      }
    }
  }

  /** A Thread of its own for the message, with one queued Run whose task is what the message asks for. */
  ghost predicate TaskStarts(t: Store, record: InboxRecord, objective: string, agent: Artifact) {
    var q := ThreadAt(t, ThreadOf(record.messageKey));
    var run := RunAt(q, RunOf(record.messageKey));
    && ThreadOf(record.messageKey) in t.threads && q.actual.Queued? && q.projectId == record.projectId
    && q.runs == map[RunOf(record.messageKey) := run] && run.state.Queued? && run.agent == Some(agent)
    && run.task == Some(TaskArtifact(TaskSnapshot(
         q.threadId, q.threadId, record.projectId, objective, record.domain, [], [], [record.text], "normal",
         record.updatedAt, "unassigned")))
    && ItemsOf(run.context) == [
         ContextItem(1, "inbox", record.messageKey, record.text, "direct", "normal", None)]
    && RunOf(record.messageKey) in t.jobs && JobAt(t, RunOf(record.messageKey)).state.Queued?
  }

  lemma PreparedTaskStarts(
    s: Store, record: InboxRecord, objective: string, agent: Artifact, sub: TaskSubmission, now: Time, t: Store)
    requires PrepareTask(record, objective, agent) == Ok(sub) && SubmitTask(s, sub, now) == Ok(t)
    requires record.threadId == Some(ThreadOf(record.messageKey)) && ThreadOf(record.messageKey) !in s.threads
    ensures TaskStarts(t, record, objective, agent)
  {
    hide SubmitTask, Title, PutContext;
    SubmissionLeaves(s, sub, now, t);
    var first := ContextItem(1, "inbox", record.messageKey, record.text, "direct", "normal", None);
    PutContextAppends(
      ContextManifest(sub.task.value, agent, [first], "inbox-context-v1", record.updatedAt), [], first);
  }

  /** A confirmed new task starts its Thread with the objective the router took from the message. */
  lemma AcceptedTask(
    s: Store, message: InboxMessage, route: InboxRoute, project: string, agent: Artifact,
    seen: Option<ThreadProjection>, ids: seq<Id>, rows: seq<Id>, now: Time, t: Store)
    requires Reached(s) && KeyOf(message) !in s.inbox && route.routeType.NewTask?
    requires Accept(s, message, route, project, agent, seen, ids, rows, now) == Ok(t)
    ensures TaskStarts(
      t, NewRecord(message, route, project),
      if route.taskText != "" then route.taskText else Strip(message.text), agent)
  {
    hide Reached, ClosedInv, LogAcceptance, PrepareTask, SubmitTask, Strip, ApplyThreadUpdate, PrepareUpdate,
      TaskStarts;
    var record := NewRecord(message, route, project);
    var u := LogAcceptance(s, record).(inbox := s.inbox[record.messageKey := record]);
    var objective := OrElse(route.taskText, Strip(message.text));
    LogAcceptanceKeeps(s, record);
    ReachedIsClosed(s);
    FreshKey(s, record.messageKey);
    PreparedTaskStarts(u, record, objective, agent, PrepareTask(record, objective, agent).value, now, t);
  }

  /** A proposed route that its sender makes a task starts its Thread with the message's own words. */
  lemma ResolvedTask(
    s: Store, stored: InboxRecord, platform: string, actor: string, target: Option<Id>, kind: Option<UpdateKind>,
    reason: string, agent: Artifact, seen: Option<ThreadProjection>, ids: seq<Id>, rows: seq<Id>, now: Time, t: Store)
    requires Reached(s) && stored.routeState.Proposed? && Row(s.inbox, stored.messageKey).routeState.Proposed?
    requires ResolveRoute(
      s, stored, platform, actor, AsNewTask, target, kind, reason, agent, seen, ids, rows, now) == Ok(t)
    ensures TaskStarts(t, stored.(updatedAt := now), TextOf(stored.text), agent)
  {
    hide Reached, ClosedInv, PrepareTask, SubmitTask, InboxLog, ApplyThreadUpdate, ValidResolution, SameInbound,
      Resolved;
    var resolver := platform + ":" + actor;
    var record := stored.(
      requiresConfirmation := false, updatedAt := now, resolvedBy := Some(resolver), resolutionReason := Some(reason),
      routeType := RouteType.NewTask, routeState := RouteState.Corrected,
      threadId := Some(ThreadOf(stored.messageKey)), updateKind := None);
    var event := RouteResolved(record.routeType, record.routeState);
    var origin, row := Origin(resolver, now, Some(stored.messageKey)), s.inbox[stored.messageKey];
    var settled := Resolved(row, record, resolver, reason);
    var u := InboxLog(s, record, origin, event).(inbox := s.inbox[stored.messageKey := settled]);
    ReachedIsClosed(s);
    FreshKey(s, record.messageKey);
    ReachedNoted(s, record, origin, event, settled);
    var sub := PrepareTask(record, TextOf(stored.text), agent).value;
    PreparedTaskStarts(u, record, TextOf(stored.text), agent, sub, now, t);
  }

  lemma ReachedNoted(s: Store, record: InboxRecord, origin: Origin, event: InboxEvent, row: InboxRecord)
    requires ClosedInv(s)
    ensures Noted(s, InboxLog(s, record, origin, event).(inbox := s.inbox[record.messageKey := row]))
  {
    hide OpenInv, AgreeInv, DeliveryInv, InboxInv, Noted;
    ResolvedNoted(s, record, origin, event, row);
  }
}
