/** The durable scheduler: leased, fenced claims over run jobs. */
module Scheduler {
  import opened Prelude
  import opened Vocabulary
  import opened Journal
  import opened Store

  /** `_assert_live_worker_claim`. */
  predicate Live(s: Store, claim: WorkerClaim, now: Time) {
    && claim.runId in s.jobs
    && var job := s.jobs[claim.runId];
    && job.state.Claimed? && job.lease.Some?
    && job.lease.value.owner == claim.worker
    && job.lease.value.leaseId == claim.leaseId
    && job.token == claim.token
    && job.lease.value.expiresAt > now
  }

  /** Holds a lease that has not run out at `now`. */
  predicate HoldsLease(job: SchedulerJob, now: Time) {
    job.state.Claimed? && job.lease.Some? && job.lease.value.expiresAt > now
  }

  predicate LeaseLapsed(job: SchedulerJob, now: Time) {
    job.state.Claimed? && job.lease.Some? && job.lease.value.expiresAt <= now
  }

  function NewJob(
    runId: Id, threadId: Id, priority: int, availableAt: Time, maxAttempts: nat, executorKey: string,
    at: Time): SchedulerJob
  {
    SchedulerJob(
      runId, threadId, JobState.Queued, priority, availableAt, 0, maxAttempts, executorKey, None, 0, None, at, at)
  }

  function InsertJob(s: Store, job: SchedulerJob, origin: Origin): Result<Store> {
    if job.runId in s.jobs then Err(IntegrityError)
    else Ok(WriteJob(s, job.runId, job, origin, RunEnqueued(job.priority, job.availableAt, job.maxAttempts,
        job.executorKey)))
  }

  /** `enqueue_run`: the raw scheduling call; asking again for the same routing changes nothing. */
  function EnqueueRun(
    s: Store, threadId: Id, runId: Id, priority: int, availableAt: Time, maxAttempts: int,
    executorKey: Option<string>, actor: string, now: Time): Result<Store>
  {
    if maxAttempts < 1 then Err(ValueError) else
    :- Need(threadId in s.threads, Error.NotFound);
    :- Need(runId in s.threads[threadId].runs, Error.NotFound);
    var run := s.threads[threadId].runs[runId];
    var key := if executorKey.Some? && executorKey.value != "" then executorKey.value else run.executorKey;
    :- Need(NonBlank(key), ValueError);
    if runId in s.jobs then
      :- Need(s.jobs[runId].threadId == threadId && s.jobs[runId].executorKey == key, IdempotencyConflict);
      Ok(s)
    else
      InsertJob(s, NewJob(runId, threadId, priority, availableAt, maxAttempts, key, now), Origin(actor, now, None))
  }

  predicate Exhausted(s: Store, runId: Id, now: Time) {
    && runId in s.jobs
    && LeaseLapsed(s.jobs[runId], now)
    && s.jobs[runId].attempts >= s.jobs[runId].maxAttempts
  }

  function FailExhausted(s: Store, runId: Id, now: Time): Store {
    if runId !in s.jobs then s
    else
      var text := Some("worker lease expired after final attempt");
      var job := s.jobs[runId].(state := JobState.Failed, lease := None, lastError := text, updatedAt := now);
      WriteJob(s, runId, job, Origin("scheduler-recovery", now, None), RunFailed(job.token, text))
  }

  /** `_fail_exhausted_worker_claims` over the rows in the order the query returned them. */
  function Sweep(s: Store, now: Time, rows: seq<Id>): Store {
    if rows == [] then s
    else
      var rest := Sweep(s, now, rows[..|rows| - 1]);
      var r := rows[|rows| - 1];
      if Exhausted(rest, r, now) then FailExhausted(rest, r, now) else rest
  }

  /** The rows the sweep's query returns. */
  ghost predicate SweepRows(s: Store, now: Time, rows: seq<Id>) {
    forall r :: Exhausted(s, r, now) ==> r in rows
  }

  /** The claim query's WHERE clause. */
  predicate Eligible(s: Store, runId: Id, now: Time, keys: Option<set<string>>) {
    && runId in s.jobs
    && var job := s.jobs[runId];
    && ((job.state.Queued? && job.availableAt <= now) || LeaseLapsed(job, now))
    && job.attempts < job.maxAttempts
    && (keys.Some? ==> job.executorKey in keys.value)
    && forall other :: other in s.jobs && other != runId && s.jobs[other].threadId == job.threadId ==>
         !HoldsLease(s.jobs[other], now)
  }

  /** The claim query's ORDER BY: a is not listed after b. */
  predicate NotAfter(a: SchedulerJob, b: SchedulerJob) {
    a.priority > b.priority
    || (a.priority == b.priority
        && (a.availableAt < b.availableAt
            || (a.availableAt == b.availableAt && a.createdAt <= b.createdAt)))
  }

  /** The claim query's answer: a first row of the eligible ones, or none when there is none. */
  ghost predicate Picks(s: Store, now: Time, keys: Option<set<string>>, pick: Option<Id>) {
    match pick
    case None => forall r :: r in s.jobs ==> !Eligible(s, r, now, keys)
    case Some(r) =>
      && Eligible(s, r, now, keys)
      && forall other :: other in s.jobs && Eligible(s, other, now, keys) ==> NotAfter(JobAt(s, r), JobAt(s, other))
  }

  function TakeClaim(s: Store, runId: Id, worker: string, leaseId: string, expiresAt: Time, now: Time): Store {
    if runId !in s.jobs then s
    else
      var row := s.jobs[runId];
      var job := row.(
        state := JobState.Claimed, attempts := row.attempts + 1, token := row.token + 1,
        lease := Some(Lease(worker, leaseId, expiresAt)), updatedAt := now);
      WriteJob(s, runId, job, Origin(worker, now, None),
        RunClaimed(leaseId, job.token, expiresAt, job.attempts, row.state.Claimed?))
  }

  function ClaimOn(s: Store, runId: Id): WorkerClaim
    requires runId in s.jobs && s.jobs[runId].lease.Some?
  {
    var job := s.jobs[runId];
    WorkerClaim(
      runId, job.threadId, job.lease.value.owner, job.lease.value.leaseId, job.token,
      job.lease.value.expiresAt, job.attempts)
  }

  /** `claim_next_run`; `rows` and `pick` are what its two queries answered. */
  function ClaimNextRun(
    s: Store, worker: string, leaseId: string, seconds: int, keys: Option<set<string>>, rows: seq<Id>,
    pick: Option<Id>, now: Time): Result<(Store, Option<WorkerClaim>)>
  {
    if seconds < 1 then Err(ValueError)
    else if keys == Some({}) then Ok((s, None))
    else Ok(ClaimPicked(Sweep(s, now, rows), worker, leaseId, now + seconds, pick, now))
  }

  /** The store a claim leaves behind. */
  function ClaimedStore(s: Store, result: Result<(Store, Option<WorkerClaim>)>): Store {
    if result.Ok? then result.value.0 else s
  }

  function ClaimPicked(s: Store, worker: string, leaseId: string, expiresAt: Time, pick: Option<Id>, now: Time)
    : (Store, Option<WorkerClaim>)
  {
    if pick.None? || pick.value !in s.jobs then (s, None)
    else
      var claimed := TakeClaim(s, pick.value, worker, leaseId, expiresAt, now);
      (claimed, Some(ClaimOn(claimed, pick.value)))
  }

  /** `heartbeat_run`. */
  function HeartbeatRun(s: Store, claim: WorkerClaim, seconds: int, now: Time): Result<Store> {
    if !Live(s, claim, now) then Err(StaleLease) else
    var job := s.jobs[claim.runId].(
      lease := Some(Lease(claim.worker, claim.leaseId, now + seconds)), updatedAt := now);
    Ok(WriteJob(s, claim.runId, job, Origin(claim.worker, now, None), RunHeartbeat(claim.leaseId, claim.token,
        now + seconds)))
  }

  datatype Settlement = Done | Retry(availableAt: Time) | GiveUp

  /** Clears the lease and records how the claim ended. */
  function SettleJob(s: Store, runId: Id, how: Settlement, errorText: Option<string>, origin: Origin): Store {
    if runId !in s.jobs then s
    else
      var row := s.jobs[runId].(lease := None, lastError := errorText, updatedAt := origin.at);
      match how
      case Done => WriteJob(s, runId, row.(state := JobState.Completed), origin, RunCompleted(row.token, errorText))
      case Retry(availableAt) =>
        WriteJob(s, runId, row.(state := JobState.Queued, availableAt := availableAt), origin,
          RunRetryScheduled(row.token, availableAt, errorText))
      case GiveUp => WriteJob(s, runId, row.(state := JobState.Failed), origin, RunFailed(row.token, errorText))
  }

  function RetryAt(now: Time, delay: int): Time {
    now + if delay > 0 then delay else 0
  }

  /** `finish_run_claim`: the raw settlement that leaves the Run alone. */
  function FinishRunClaim(
    s: Store, claim: WorkerClaim, succeeded: bool, errorText: Option<string>, retryable: bool, delay: int,
    now: Time): Result<Store>
  {
    if !Live(s, claim, now) then Err(StaleLease) else
    var job := s.jobs[claim.runId];
    var how :=
      if succeeded then Done
      else if retryable && job.attempts < job.maxAttempts then Retry(RetryAt(now, delay))
      else GiveUp;
    Ok(SettleJob(s, claim.runId, how, errorText, Origin(claim.worker, now, None)))
  }

  /** The job half of cancelling a Run. */
  function CancelJob(s: Store, runId: Id, origin: Origin): Store {
    if runId in s.jobs && (s.jobs[runId].state.Queued? || s.jobs[runId].state.Claimed?) then
      var row := s.jobs[runId];
      WriteJob(s, runId, row.(state := JobState.Cancelled, lease := None, updatedAt := origin.at), origin,
        RunCancelled(row.state, row.token))
    else s
  }

  /** One scheduler event applied to one scheduler row. */
  function FoldJob(row: Option<SchedulerJob>, runId: Id, event: Event): Option<SchedulerJob> {
    if !event.body.OfJob? || event.thread.None? then row
    else if row.None? then
      match event.body.job
      case RunEnqueued(priority, availableAt, maxAttempts, executorKey) =>
        Some(NewJob(runId, event.thread.value, priority, availableAt, maxAttempts, executorKey, event.at))
      case _ => None
    else
      var job := row.value.(updatedAt := event.at);
      match event.body.job
      case RunEnqueued(_, _, _, _) => row
      case RunClaimed(leaseId, token, expiresAt, attempt, _) =>
        Some(job.(state := JobState.Claimed, attempts := attempt, token := token,
                  lease := Some(Lease(event.actor, leaseId, expiresAt))))
      case RunHeartbeat(leaseId, _, expiresAt) =>
        Some(job.(lease := Some(Lease(event.actor, leaseId, expiresAt))))
      case RunCompleted(_, errorText) =>
        Some(job.(state := JobState.Completed, lease := None, lastError := errorText))
      case RunRetryScheduled(_, availableAt, errorText) =>
        Some(job.(state := JobState.Queued, availableAt := availableAt, lease := None, lastError := errorText))
      case RunFailed(_, errorText) =>
        Some(job.(state := JobState.Failed, lease := None, lastError := errorText))
      case RunCancelled(_, _) => Some(job.(state := JobState.Cancelled, lease := None))
  }

  /** The fold of one run's `scheduler-run` events. */
  function ReplayJob(journal: seq<Event>, runId: Id): Option<SchedulerJob> {
    if journal == [] then None
    else
      var last := journal[|journal| - 1];
      var earlier := ReplayJob(journal[..|journal| - 1], runId);
      if last.stream == JobStream(runId) then FoldJob(earlier, runId, last) else earlier
  }

  /** The claims issued for a run so far. */
  function ClaimsIssued(journal: seq<Event>, runId: Id): nat {
    if journal == [] then 0
    else
      ClaimsIssued(journal[..|journal| - 1], runId) + if IssuesClaim(journal[|journal| - 1], runId) then 1 else 0
  }

  predicate IssuesClaim(event: Event, runId: Id) {
    match event.body
    case OfJob(RunClaimed(_, _, _, _, _)) => event.stream == JobStream(runId)
    case _ => false
  }

  /** The claim a claim event handed to its worker. */
  function IssuedClaim(event: Event): WorkerClaim
    requires event.stream.JobStream? && IssuesClaim(event, event.stream.run) && event.thread.Some?
  {
    var e := event.body.job;
    WorkerClaim(event.stream.run, event.thread.value, event.actor, e.leaseId, e.token, e.expiresAt, e.attempt)
  }

  // =========================================================================== every caller
  // Fencing, budget and journal agreement of the scheduler, for every caller of its job calls.

  /** A row's own bookkeeping: one token and one attempt per claim, never past the budget. */
  ghost predicate RowOK(runId: Id, job: SchedulerJob) {
    && job.runId == runId
    && job.token == job.attempts <= job.maxAttempts
    && job.maxAttempts >= 1
    && (job.state.Queued? ==> job.attempts < job.maxAttempts)
    && (job.state.Claimed? <==> job.lease.Some?)
  }

  ghost predicate RowsOK(s: Store) {
    forall r :: r in s.jobs ==> RowOK(r, JobAt(s, r))
  }

  /** The scheduler table is the fold of the scheduler journal, row by row and column by column. */
  ghost predicate JobsReplayed(s: Store) {
    forall r :: ReplayJob(s.journal, r) == Lookup(s.jobs, r)
  }

  /** Claim events carry the numbers 1, 2, 3, ... of their run. */
  ghost predicate ClaimsNumbered(journal: seq<Event>) {
    forall i :: 0 <= i < |journal| && journal[i].stream.JobStream? ==>
      IssuesClaim(journal[i], journal[i].stream.run) ==>
        && journal[i].thread.Some?
        && journal[i].body.job.token == ClaimsIssued(journal[..i + 1], journal[i].stream.run)
  }

  ghost predicate TokensCountClaims(s: Store) {
    forall r :: ClaimsIssued(s.journal, r) == if r in s.jobs then JobAt(s, r).token else 0
  }

  /** At the store's clock no two jobs of a Thread hold a lease that has not run out. */
  ghost predicate OneLeasePerThread(s: Store) {
    forall r1, r2 :: r1 in s.jobs && r2 in s.jobs && r1 != r2 && s.jobs[r1].threadId == s.jobs[r2].threadId ==>
      !HoldsLease(s.jobs[r1], s.clock) || !HoldsLease(s.jobs[r2], s.clock)
  }

  ghost predicate SchedulerInv(s: Store) {
    && RowsOK(s) && JobsReplayed(s) && ClaimsNumbered(s.journal) && TokensCountClaims(s)
    && OneLeasePerThread(s)
  }

  predicate EndedJob(job: SchedulerJob) {
    job.state.Completed? || job.state.Failed? || job.state.Cancelled?
  }

  /** Rows never vanish or change owner, tokens never fall, an ended job never changes again, and a
      lease that is gone or has run out never comes back under the same token. */
  ghost predicate RowsAdvance(s: Store, t: Store) {
    && s.clock <= t.clock
    && forall r :: r in s.jobs ==> r in t.jobs && RowAdvances(JobAt(s, r), s.clock, JobAt(t, r), t.clock)
  }

  predicate RowAdvances(was: SchedulerJob, before: Time, row: SchedulerJob, now: Time) {
    && row.threadId == was.threadId && row.maxAttempts == was.maxAttempts && was.token <= row.token
    && (EndedJob(was) ==> row == was)
    && (was.token == row.token && HoldsLease(row, now) ==>
          && HoldsLease(was, before)
          && was.lease.value.owner == row.lease.value.owner && was.lease.value.leaseId == row.lease.value.leaseId)
  }

  lemma RowsAdvanceTransitive(s: Store, t: Store, u: Store)
    requires RowsAdvance(s, t) && RowsAdvance(t, u)
    ensures RowsAdvance(s, u)
  {
    forall r | r in s.jobs
      ensures r in u.jobs
    {
      assert r in t.jobs;
    }
  }

  /** What a scheduler write must respect; every scheduler call is a sequence of such writes. */
  ghost predicate SoundWrite(s: Store, runId: Id, job: SchedulerJob, origin: Origin, event: JobEvent) {
    var draft := DraftOf(JobStream(runId), Some(job.threadId), origin, OfJob(event));
    && FoldJob(Lookup(s.jobs, runId), runId, Envelope(s.journal, draft)) == Some(job)
    && RowOK(runId, job)
    && (runId in s.jobs ==>
          && s.jobs[runId].threadId == job.threadId && s.jobs[runId].maxAttempts == job.maxAttempts
          && !EndedJob(s.jobs[runId]))
    && var before := if runId in s.jobs then s.jobs[runId].token else 0;
    && (if event.RunClaimed? then job.token == before + 1 && event.token == job.token else job.token == before)
    && (HoldsLease(job, s.clock) ==>
          || (forall other :: other in s.jobs && other != runId && s.jobs[other].threadId == job.threadId ==>
                !HoldsLease(s.jobs[other], s.clock))
          || (runId in s.jobs && HoldsLease(s.jobs[runId], s.clock)))
    && (HoldsLease(job, s.clock) && !event.RunClaimed? ==>
          && runId in s.jobs && HoldsLease(s.jobs[runId], s.clock)
          && s.jobs[runId].lease.value.owner == job.lease.value.owner
          && s.jobs[runId].lease.value.leaseId == job.lease.value.leaseId)
  }

  lemma ReplayJobInsert(journal: seq<Event>, draft: Draft, r: Id)
    ensures ReplayJob(Insert(journal, draft), r)
         == if draft.stream == JobStream(r) then FoldJob(ReplayJob(journal, r), r, Envelope(journal, draft))
            else ReplayJob(journal, r)
    ensures ClaimsIssued(Insert(journal, draft), r)
         == ClaimsIssued(journal, r) + if IssuesClaim(Envelope(journal, draft), r) then 1 else 0
  {
    var next := Insert(journal, draft);
    assert next[..|next| - 1] == journal;
  }

  lemma InsertKeepsNumbers(journal: seq<Event>, draft: Draft)
    requires ClaimsNumbered(journal) && draft.thread.Some?
    requires forall r :: IssuesClaim(Envelope(journal, draft), r) ==>
      match draft.body
      case OfJob(RunClaimed(_, token, _, _, _)) => token == ClaimsIssued(journal, r) + 1
      case _ => false
    ensures ClaimsNumbered(Insert(journal, draft))
  {
    var next := Insert(journal, draft);
    forall i | 0 <= i < |next| && next[i].stream.JobStream? && IssuesClaim(next[i], next[i].stream.run)
      ensures next[i].thread.Some?
      ensures next[i].body.job.token == ClaimsIssued(next[..i + 1], next[i].stream.run)
    {
      if i < |journal| {
        assert next[..i + 1] == journal[..i + 1];
      } else {
        assert next[..i + 1] == next;
        ReplayJobInsert(journal, draft, next[i].stream.run);
      }
    }
  }

  lemma WriteAdvances(s: Store, runId: Id, job: SchedulerJob, origin: Origin, event: JobEvent)
    requires SoundWrite(s, runId, job, origin, event)
    ensures RowsAdvance(s, WriteJob(s, runId, job, origin, event))
  {
    hide Insert, FoldJob;
  }

  lemma WriteKeepsInv(s: Store, runId: Id, job: SchedulerJob, origin: Origin, event: JobEvent)
    requires SchedulerInv(s) && SoundWrite(s, runId, job, origin, event)
    ensures SchedulerInv(WriteJob(s, runId, job, origin, event))
    ensures RowsAdvance(s, WriteJob(s, runId, job, origin, event))
  {
    hide RowsAdvance;
    var t := WriteJob(s, runId, job, origin, event);
    var draft := DraftOf(JobStream(runId), Some(job.threadId), origin, OfJob(event));
    WriteAdvances(s, runId, job, origin, event);
    WriteKeepsOneLease(s, runId, job, origin, event);
    assert ReplayJob(s.journal, runId) == Lookup(s.jobs, runId);
    assert ClaimsIssued(s.journal, runId) == if runId in s.jobs then s.jobs[runId].token else 0;
    hide ClaimsNumbered, OneLeasePerThread, Insert;
    InsertKeepsNumbers(s.journal, draft);
    forall r
      ensures ReplayJob(t.journal, r) == Lookup(t.jobs, r)
      ensures ClaimsIssued(t.journal, r) == if r in t.jobs then t.jobs[r].token else 0
    {
      ReplayJobInsert(s.journal, draft, r);
      assert ReplayJob(s.journal, r) == Lookup(s.jobs, r);
    }
  }

  lemma WriteKeepsOneLease(s: Store, runId: Id, job: SchedulerJob, origin: Origin, event: JobEvent)
    requires OneLeasePerThread(s) && SoundWrite(s, runId, job, origin, event)
    ensures OneLeasePerThread(WriteJob(s, runId, job, origin, event))
  {
    var t := WriteJob(s, runId, job, origin, event);
    forall r1, r2 | r1 in t.jobs && r2 in t.jobs && r1 != r2 && t.jobs[r1].threadId == t.jobs[r2].threadId
      ensures !HoldsLease(t.jobs[r1], t.clock) || !HoldsLease(t.jobs[r2], t.clock)
    {
      if r1 != runId && r2 != runId {
        assert r1 in s.jobs && r2 in s.jobs;
      } else {
        var other := if r1 == runId then r2 else r1;
        assert other in s.jobs && other != runId;
      }
    }
  }

  lemma {:induction false} ReplayJobQuiet(before: seq<Event>, more: seq<Event>, r: Id)
    requires forall e :: e in more ==> !e.stream.JobStream?
    ensures ReplayJob(before + more, r) == ReplayJob(before, r)
    ensures ClaimsIssued(before + more, r) == ClaimsIssued(before, r)
    decreases |more|
  {
    if more == [] {
      assert before + more == before;
    } else {
      assert (before + more)[..|before + more| - 1] == before + more[..|more| - 1];
      ReplayJobQuiet(before, more[..|more| - 1], r);
    }
  }

  /** Work elsewhere in the store leaves the scheduler's guarantees alone. */
  lemma QuietKeepsScheduler(s: Store, t: Store)
    requires SchedulerInv(s) && Quiet(s, t, Jobs) && s.clock <= t.clock
    ensures SchedulerInv(t) && RowsAdvance(s, t)
  {
    hide ReplayJob;
    forall r
      ensures ReplayJob(t.journal, r) == Lookup(t.jobs, r)
      ensures ClaimsIssued(t.journal, r) == if r in t.jobs then t.jobs[r].token else 0
    {
      assert t.journal == s.journal + t.journal[|s.journal|..];
      ReplayJobQuiet(s.journal, t.journal[|s.journal|..], r);
      assert ReplayJob(s.journal, r) == Lookup(s.jobs, r);
    }
    forall i | 0 <= i < |t.journal| && t.journal[i].stream.JobStream?
               && IssuesClaim(t.journal[i], t.journal[i].stream.run)
      ensures t.journal[i].thread.Some?
      ensures t.journal[i].body.job.token == ClaimsIssued(t.journal[..i + 1], t.journal[i].stream.run)
    {
      assert i < |s.journal|;
      assert t.journal[..i + 1] == s.journal[..i + 1];
    }
  }

  lemma FailExhaustedKeepsInv(s: Store, runId: Id)
    requires SchedulerInv(s) && Exhausted(s, runId, s.clock)
    ensures SchedulerInv(FailExhausted(s, runId, s.clock)) && RowsAdvance(s, FailExhausted(s, runId, s.clock))
  {
    hide RowsAdvance, WriteJob;
    var text := Some("worker lease expired after final attempt");
    var job := s.jobs[runId].(state := JobState.Failed, lease := None, lastError := text, updatedAt := s.clock);
    WriteKeepsInv(s, runId, job, Origin("scheduler-recovery", s.clock, None), RunFailed(job.token, text));
  }

  lemma {:induction false} SweepKeepsInv(s: Store, rows: seq<Id>)
    requires SchedulerInv(s)
    ensures var t := Sweep(s, s.clock, rows);
      SchedulerInv(t) && RowsAdvance(s, t) && t.clock == s.clock && t.jobs.Keys == s.jobs.Keys
    decreases |rows|
  {
    hide ClaimNextRun, SchedulerInv, Insert;
    if rows != [] {
      SweepKeepsInv(s, rows[..|rows| - 1]);
      var rest := Sweep(s, s.clock, rows[..|rows| - 1]);
      var r := rows[|rows| - 1];
      if Exhausted(rest, r, s.clock) {
        FailExhaustedKeepsInv(rest, r);
        RowsAdvanceTransitive(s, rest, FailExhausted(rest, r, s.clock));
      }
    }
  }

  function ClaimedRow(row: SchedulerJob, lease: Lease, at: Time): SchedulerJob {
    row.(state := JobState.Claimed, attempts := row.attempts + 1, token := row.token + 1, lease := Some(lease),
         updatedAt := at)
  }

  lemma TakeClaimKeepsInv(s: Store, runId: Id, worker: string, leaseId: string, expiresAt: Time,
      keys: Option<set<string>>)
    requires SchedulerInv(s) && Eligible(s, runId, s.clock, keys)
    ensures var t := TakeClaim(s, runId, worker, leaseId, expiresAt, s.clock);
      SchedulerInv(t) && RowsAdvance(s, t)
  {
    hide RowsAdvance, WriteJob, JobsReplayed, ClaimsNumbered, TokensCountClaims, OneLeasePerThread, ClaimNextRun;
    var row, lease, origin := s.jobs[runId], Lease(worker, leaseId, expiresAt), Origin(worker, s.clock, None);
    var job := ClaimedRow(row, lease, s.clock);
    var event := RunClaimed(leaseId, job.token, expiresAt, job.attempts, row.state.Claimed?);
    assert SoundWrite(s, runId, job, origin, event);
    WriteKeepsInv(s, runId, job, origin, event);
  }

  lemma ClaimNextKeepsInv(
    s: Store, worker: string, leaseId: string, seconds: int, keys: Option<set<string>>, rows: seq<Id>,
    pick: Option<Id>)
    requires SchedulerInv(s)
    requires Picks(Sweep(s, s.clock, rows), s.clock, keys, pick)
    requires ClaimNextRun(s, worker, leaseId, seconds, keys, rows, pick, s.clock).Ok?
    ensures var t := ClaimedStore(s, ClaimNextRun(s, worker, leaseId, seconds, keys, rows, pick, s.clock));
      SchedulerInv(t) && RowsAdvance(s, t)
  {
    hide SchedulerInv, Picks, Sweep, ClaimPicked;
    assert RowsAdvance(s, s) by {
      assert RowsAdvance(s, s);
    }
    if keys != Some({}) {
      SweepKeepsInv(s, rows);
      var swept := Sweep(s, s.clock, rows);
      ClaimPickedKeepsInv(swept, worker, leaseId, swept.clock + seconds, keys, pick);
      RowsAdvanceTransitive(s, swept, ClaimPicked(swept, worker, leaseId, swept.clock + seconds, pick, swept.clock).0);
    }
  }

  lemma ClaimPickedKeepsInv(
    s: Store, worker: string, leaseId: string, expiresAt: Time, keys: Option<set<string>>, pick: Option<Id>)
    requires SchedulerInv(s)
    requires Picks(s, s.clock, keys, pick)
    ensures var t := ClaimPicked(s, worker, leaseId, expiresAt, pick, s.clock).0;
      SchedulerInv(t) && RowsAdvance(s, t)
  {
    hide ClaimNextRun, EndedJob, SchedulerInv, TakeClaim;
    if pick.Some? {
      TakeClaimKeepsInv(s, pick.value, worker, leaseId, expiresAt, keys);
    }
  }

  /** A claim that a newer claim, a settlement, a cancellation or its own expiry has ended. */
  ghost predicate Spent(s: Store, claim: WorkerClaim) {
    && claim.runId in s.jobs
    && claim.token <= JobAt(s, claim.runId).token
    && (claim.token == JobAt(s, claim.runId).token ==> !HoldsLease(JobAt(s, claim.runId), s.clock))
  }

  /** A spent claim stays spent for ever, and no fenced write will accept it at any later time. */
  lemma SpentForever(s: Store, t: Store, claim: WorkerClaim, now: Time)
    requires RowsAdvance(s, t) && Spent(s, claim)
    requires t.clock <= now
    ensures Spent(t, claim) && !Live(t, claim, now)
  {
  }

  /** ClaimsIssued grows with the journal. */
  lemma {:induction false} ClaimsIssuedMonotone(before: seq<Event>, after: seq<Event>, r: Id)
    requires before <= after
    ensures ClaimsIssued(before, r) <= ClaimsIssued(after, r)
    decreases |after|
  {
    if |before| < |after| {
      assert before <= after[..|after| - 1];
      ClaimsIssuedMonotone(before, after[..|after| - 1], r);
    } else {
      assert before == after;
    }
  }

  /** Of two claims ever issued for a run, the later has the larger token. */
  lemma LaterClaimLargerToken(journal: seq<Event>, i: nat, j: nat, r: Id)
    requires ClaimsNumbered(journal)
    requires i < j < |journal|
    requires IssuesClaim(journal[i], r) && IssuesClaim(journal[j], r)
    ensures journal[i].body.job.token < journal[j].body.job.token
  {
    assert journal[..j + 1][..j] == journal[..j];
    ClaimsIssuedMonotone(journal[..i + 1], journal[..j], r);
  }

  // =========================================================================== the attempts left
  // The attempt budget bounds every run, and the claim query always has an answer.

  // ---------------------------------------------------------------- sums over a set of ids

  ghost function Sum(ids: set<Id>, f: Id -> nat): nat {
    if ids == {} then 0 else var r :| r in ids; f(r) + Sum(ids - {r}, f)
  }

  lemma {:induction false} SumSplit(ids: set<Id>, f: Id -> nat, r: Id)
    requires r in ids
    ensures Sum(ids, f) == f(r) + Sum(ids - {r}, f)
    decreases |ids|
  {
    var x :| x in ids && Sum(ids, f) == f(x) + Sum(ids - {x}, f);
    if x != r {
      SumSplit(ids - {x}, f, r);
      SumSplit(ids - {r}, f, x);
      assert ids - {x} - {r} == ids - {r} - {x};
    }
  }

  lemma {:induction false} SumAtMost(ids: set<Id>, f: Id -> nat, g: Id -> nat)
    requires forall r :: r in ids ==> f(r) <= g(r)
    ensures Sum(ids, f) <= Sum(ids, g)
    decreases |ids|
  {
    if ids != {} {
      var r :| r in ids;
      SumSplit(ids, f, r);
      SumSplit(ids, g, r);
      SumAtMost(ids - {r}, f, g);
    }
  }

  lemma SumBelow(ids: set<Id>, f: Id -> nat, g: Id -> nat, r: Id)
    requires r in ids && f(r) < g(r)
    requires forall x :: x in ids ==> f(x) <= g(x)
    ensures Sum(ids, f) < Sum(ids, g)
  {
    SumSplit(ids, f, r);
    SumSplit(ids, g, r);
    SumAtMost(ids - {r}, f, g);
  }

  // ---------------------------------------------------------------- the budget

  function AttemptsLeft(s: Store): Id -> nat {
    r => if r in s.jobs && s.jobs[r].attempts < s.jobs[r].maxAttempts
         then s.jobs[r].maxAttempts - s.jobs[r].attempts else 0
  }

  function Allowed(s: Store): Id -> nat {
    r => if r in s.jobs then s.jobs[r].maxAttempts else 0
  }

  function Issued(s: Store): Id -> nat {
    r => ClaimsIssued(s.journal, r)
  }

  /** The claims still to be had for the given Runs: the worker loop's measure. */
  ghost function Remaining(s: Store, ids: set<Id>): nat {
    Sum(ids, AttemptsLeft(s))
  }

  lemma RowBudget(s: Store, r: Id)
    requires SchedulerInv(s) && r in s.jobs
    ensures ClaimsIssued(s.journal, r) == JobAt(s, r).token == JobAt(s, r).attempts <= JobAt(s, r).maxAttempts
    ensures JobAt(s, r).state.Queued? ==> AttemptsLeft(s)(r) > 0
  {
    hide JobsReplayed, ClaimsNumbered, OneLeasePerThread;
    assert ClaimsIssued(s.journal, r) == if r in s.jobs then s.jobs[r].token else 0;
  }

  /** Whatever happens to the store, the remaining budget of the jobs it has never grows. */
  lemma BudgetNeverGrows(s: Store, t: Store)
    requires SchedulerInv(s) && SchedulerInv(t) && RowsAdvance(s, t)
    ensures Remaining(t, s.jobs.Keys) <= Remaining(s, s.jobs.Keys)
  {
    hide SchedulerInv;
    forall r | r in s.jobs.Keys
      ensures AttemptsLeft(t)(r) <= AttemptsLeft(s)(r)
    {
      RowBudget(s, r);
      RowBudget(t, r);
    }
    SumAtMost(s.jobs.Keys, AttemptsLeft(t), AttemptsLeft(s));
  }

  lemma TakeUsesBudget(s: Store, r: Id, worker: string, leaseId: string, expiresAt: Time, now: Time)
    requires r in s.jobs && JobAt(s, r).attempts < JobAt(s, r).maxAttempts
    ensures var t := TakeClaim(s, r, worker, leaseId, expiresAt, now);
      t.jobs.Keys == s.jobs.Keys && Remaining(t, s.jobs.Keys) < Remaining(s, s.jobs.Keys)
  {
    var t := TakeClaim(s, r, worker, leaseId, expiresAt, now);
    SumBelow(s.jobs.Keys, AttemptsLeft(t), AttemptsLeft(s), r);
  }

  /** Handing out a claim uses up budget: a worker that keeps getting claims must run out of them. */
  lemma ClaimUsesBudget(
    s: Store, worker: string, leaseId: string, seconds: int, keys: Option<set<string>>, rows: seq<Id>, pick: Option<Id>)
    requires SchedulerInv(s) && Picks(Sweep(s, s.clock, rows), s.clock, keys, pick)
    requires ClaimNextRun(s, worker, leaseId, seconds, keys, rows, pick, s.clock).Ok?
    requires ClaimNextRun(s, worker, leaseId, seconds, keys, rows, pick, s.clock).value.1.Some?
    ensures var t := ClaimedStore(s, ClaimNextRun(s, worker, leaseId, seconds, keys, rows, pick, s.clock));
      t.jobs.Keys == s.jobs.Keys && Remaining(t, s.jobs.Keys) < Remaining(s, s.jobs.Keys)
  {
    hide SchedulerInv, Sweep, TakeClaim, Remaining, RowsAdvance;
    var swept := Sweep(s, s.clock, rows);
    SweepKeepsInv(s, rows);
    BudgetNeverGrows(s, swept);
    assert pick.value in swept.jobs && swept.jobs[pick.value].attempts < swept.jobs[pick.value].maxAttempts;
    TakeUsesBudget(swept, pick.value, worker, leaseId, s.clock + seconds, s.clock);
  }

  // ---------------------------------------------------------------- the claim query

  lemma {:induction false} FirstExists(s: Store, ids: set<Id>) returns (first: Id)
    requires ids != {} && ids <= s.jobs.Keys
    ensures first in ids && forall r :: r in ids ==> NotAfter(JobAt(s, first), JobAt(s, r))
    decreases |ids|
  {
    var x :| x in ids;
    if ids == {x} {
      first := x;
    } else {
      var rest := FirstExists(s, ids - {x});
      first := if NotAfter(s.jobs[x], s.jobs[rest]) then x else rest;
      forall r | r in ids
        ensures NotAfter(s.jobs[first], s.jobs[r])
      {
        if r == x {
        } else {
          assert r in ids - {x};
        }
      }
    }
  }

  /** The claim query always has an answer, and it is None exactly when no job is eligible. */
  lemma QueryAnswers(s: Store, now: Time, keys: Option<set<string>>) returns (pick: Option<Id>)
    ensures Picks(s, now, keys, pick)
    ensures pick.None? <==> forall r :: r in s.jobs ==> !Eligible(s, r, now, keys)
  {
    hide Eligible, NotAfter;
    var ids := set r | r in s.jobs && Eligible(s, r, now, keys);
    if ids == {} {
      pick := None;
      forall r | r in s.jobs
        ensures !Eligible(s, r, now, keys)
      {
        assert r !in ids;
      }
    } else {
      var first := FirstExists(s, ids);
      pick := Some(first);
      forall other | other in s.jobs && Eligible(s, other, now, keys)
        ensures NotAfter(s.jobs[first], s.jobs[other])
      {
        assert other in ids;
      }
    }
  }

  /** After a complete sweep no job is left whose last lease has run out. */
  lemma {:induction false} SweepIsComplete(s: Store, now: Time, rows: seq<Id>)
    requires SweepRows(s, now, rows)
    ensures forall r :: !Exhausted(Sweep(s, now, rows), r, now)
  {
    hide Sweep;
    forall r
      ensures !Exhausted(Sweep(s, now, rows), r, now)
    {
      SweepHandles(s, now, rows, r);
    }
  }

  lemma {:induction false} SweepHandles(s: Store, now: Time, rows: seq<Id>, r: Id)
    ensures Exhausted(Sweep(s, now, rows), r, now) ==> Exhausted(s, r, now) && r !in rows
    decreases |rows|
  {
    if rows != [] {
      var n := |rows| - 1;
      SweepHandles(s, now, rows[..n], r);
      var rest := Sweep(s, now, rows[..n]);
      if Exhausted(rest, rows[n], now) {
        var t := FailExhausted(rest, rows[n], now);
        assert !Exhausted(t, rows[n], now) && (Exhausted(t, r, now) ==> Exhausted(rest, r, now));
      }
      assert r in rows ==> r in rows[..n] || r == rows[n];
    }
  }

  // =========================================================================== the worker's loops
  // The loops that drive a worker: how many claims they ask for, how many results they return, and why
  // they come to an end.

  /** What one `_claim_one` meets: the store, and the answers of the claim's two queries. */
  datatype Moment = Moment(
    store: Store, worker: string, leaseId: string, seconds: int, keys: Option<set<string>>, rows: seq<Id>,
    pick: Option<Id>)

  function ClaimAt(m: Moment): Result<(Store, Option<WorkerClaim>)> {
    ClaimNextRun(m.store, m.worker, m.leaseId, m.seconds, m.keys, m.rows, m.pick, m.store.clock)
  }

  predicate Granted(m: Moment) {
    ClaimAt(m).Ok? && ClaimAt(m).value.1.Some?
  }

  function AfterClaim(m: Moment): Store {
    ClaimedStore(m.store, ClaimAt(m))
  }

  ghost predicate GenuineRequest(m: Moment) {
    && SchedulerInv(m.store)
    && Picks(Sweep(m.store, m.store.clock, m.rows), m.store.clock, m.keys, m.pick)
  }

  /** From one request to the next the runtime may do anything but submit new work. */
  ghost predicate Follows(m: Moment, next: Moment) {
    RowsAdvance(AfterClaim(m), next.store) && next.store.jobs.Keys == m.store.jobs.Keys
  }

  ghost predicate History(moments: nat -> Moment) {
    (forall k: nat :: GenuineRequest(moments(k))) && forall k: nat :: Follows(moments(k), moments(k + 1))
  }

  /** The requests granted among the first n. */
  function Grants(moments: nat -> Moment, n: nat): nat {
    if n == 0 then 0 else Grants(moments, n - 1) + if Granted(moments(n - 1)) then 1 else 0
  }

  lemma {:induction false} GrantsAdd(moments: nat -> Moment, from: nat, count: nat)
    requires forall k :: from <= k < from + count ==> Granted(moments(k))
    ensures Grants(moments, from + count) == Grants(moments, from) + count
    decreases count
  {
    hide Granted;
    if count > 0 {
      GrantsAdd(moments, from, count - 1);
    }
  }

  /** A granted claim spends budget, and a refused one adds none. */
  lemma ClaimSpends(m: Moment)
    requires GenuineRequest(m)
    ensures SchedulerInv(AfterClaim(m)) && AfterClaim(m).jobs.Keys >= m.store.jobs.Keys
    ensures Remaining(AfterClaim(m), m.store.jobs.Keys) + (if Granted(m) then 1 else 0)
         <= Remaining(m.store, m.store.jobs.Keys)
  {
    hide SchedulerInv, Picks, Sweep, ClaimNextRun, Remaining;
    if ClaimAt(m).Ok? {
      ClaimNextKeepsInv(m.store, m.worker, m.leaseId, m.seconds, m.keys, m.rows, m.pick);
      BudgetNeverGrows(m.store, AfterClaim(m));
      if Granted(m) {
        ClaimUsesBudget(m.store, m.worker, m.leaseId, m.seconds, m.keys, m.rows, m.pick);
      }
    }
  }

  /** Without new work, however often a worker asks, it is granted no more claims than there were attempts
      left when it began. */
  lemma {:induction false} GrantsWithinBudget(moments: nat -> Moment, n: nat)
    requires History(moments)
    ensures var ids := moments(0).store.jobs.Keys;
      && moments(n).store.jobs.Keys == ids
      && Grants(moments, n) + Remaining(moments(n).store, ids) <= Remaining(moments(0).store, ids)
    decreases n
  {
    hide SchedulerInv, Remaining, Granted, AfterClaim, RowsAdvance, Picks, Sweep;
    if n > 0 {
      GrantsWithinBudget(moments, n - 1);
      assert GenuineRequest(moments(n - 1)) && Follows(moments(n - 1), moments(n - 1 + 1));
      ClaimSpends(moments(n - 1));
      BudgetFollows(AfterClaim(moments(n - 1)), moments(n).store, moments(0).store.jobs.Keys);
    }
  }

  lemma BudgetFollows(s: Store, t: Store, ids: set<Id>)
    requires SchedulerInv(s) && SchedulerInv(t) && RowsAdvance(s, t) && ids <= s.jobs.Keys
    ensures Remaining(t, ids) <= Remaining(s, ids)
  {
    hide SchedulerInv, ClaimsIssued;
    forall r | r in ids
      ensures AttemptsLeft(t)(r) <= AttemptsLeft(s)(r)
    {
      RowBudget(s, r);
      RowBudget(t, r);
    }
    SumAtMost(ids, AttemptsLeft(t), AttemptsLeft(s));
  }

  /** `run_batch`: claims until the limit or the first refusal, then executes what it claimed. */
  method RunBatch(moments: nat -> Moment, asked: nat, concurrency: nat, maxJobs: Option<int>)
    returns (r: Result<nat>, nowAsked: nat)
    requires concurrency >= 1
    ensures r.Ok? <==> maxJobs.None? || maxJobs.value >= 1
    ensures r.Err? ==> r == Err(ValueError) && nowAsked == asked
    ensures r.Ok? ==>
      && asked < nowAsked && r.value <= concurrency && (maxJobs.Some? ==> r.value <= maxJobs.value)
      && Grants(moments, nowAsked) == Grants(moments, asked) + r.value
      && (r.value < concurrency && (maxJobs.None? || r.value < maxJobs.value) ==> !Granted(moments(nowAsked - 1)))
      && (r.value == 0 ==> nowAsked == asked + 1 && !Granted(moments(asked)))
  {
    hide Granted;
    nowAsked := asked;
    if maxJobs.Some? && maxJobs.value < 1 {
      return Err(ValueError), nowAsked;
    }
    var claimLimit := if maxJobs.None? || concurrency < maxJobs.value then concurrency else maxJobs.value;
    var active := 0;
    while active < claimLimit
      invariant 0 <= active <= claimLimit && nowAsked == asked + active
      invariant forall k :: asked <= k < nowAsked ==> Granted(moments(k))
    {
      nowAsked := nowAsked + 1;
      if !Granted(moments(nowAsked - 1)) {
        GrantsAdd(moments, asked, active);
        return Ok(active), nowAsked;
      }
      active := active + 1;
    }
    GrantsAdd(moments, asked, active);
    return Ok(active), nowAsked;
  }

  /** Nothing could be claimed at that request: no job is eligible once the sweep has run. */
  ghost predicate Idle(m: Moment) {
    m.seconds >= 1 && m.keys != Some({}) ==>
      var swept := Sweep(m.store, m.store.clock, m.rows);
      forall r :: r in swept.jobs ==> !Eligible(swept, r, m.store.clock, m.keys)
  }

  lemma RefusedMeansIdle(m: Moment)
    requires GenuineRequest(m) && !Granted(m)
    ensures Idle(m)
  {
    hide SchedulerInv, Sweep, TakeClaim, ClaimOn;
  }

  /** `run_until_idle`: one result for each claim it was granted, never more than `maxJobs` nor than the
      attempts that were left, and fewer than `maxJobs` only once nothing is left to claim. */
  method RunUntilIdle(moments: nat -> Moment, concurrency: nat, maxJobs: int) returns (r: Result<nat>, asked: nat)
    requires concurrency >= 1 && History(moments)
    ensures r.Ok? <==> maxJobs >= 1
    ensures r.Err? ==> r == Err(ValueError)
    ensures r.Ok? ==> r.value <= maxJobs && r.value == Grants(moments, asked)
    ensures r.Ok? ==> r.value <= Remaining(moments(0).store, moments(0).store.jobs.Keys)
    ensures r.Ok? && r.value < maxJobs ==> asked > 0 && Idle(moments(asked - 1))
  {
    hide Granted, Idle, History, Remaining, GenuineRequest, Follows;
    asked := 0;
    if maxJobs < 1 {
      return Err(ValueError), asked;
    }
    var completed := 0;
    while completed < maxJobs
      invariant 0 <= completed <= maxJobs && completed == Grants(moments, asked)
      decreases maxJobs - completed
    {
      var batch;
      batch, asked := RunBatch(moments, asked, concurrency, Some(maxJobs - completed));
      if batch.value == 0 {
        HistoryAt(moments, asked - 1);
        RefusedMeansIdle(moments(asked - 1));
        break;
      }
      completed := completed + batch.value;
    }
    GrantsWithinBudget(moments, asked);
    return Ok(completed), asked;
  }

  lemma HistoryAt(moments: nat -> Moment, k: nat)
    requires History(moments)
    ensures GenuineRequest(moments(k))
  {
    hide Follows, Picks, SchedulerInv, Sweep;
  }
}
