/** The whole store's standing invariant, and what one transaction may do to it. */
module Integrity {
  import opened Prelude
  import opened Vocabulary
  import opened Journal
  import opened Reducer
  import opened Store
  import opened Scheduler
  import opened Actions
  import opened Resources
  import opened Lifecycle

  /** Replay equals storage: folding a Thread's stream gives its stored projection, for every Thread,
      and the journal numbers every stream without a gap. */
  ghost predicate Faithful(s: Store) {
    && Sequenced(s.journal)
    && forall thread :: Replay(s.journal, thread) == Ok(Lookup(s.threads, thread))
  }

  ghost predicate OpenInv(s: Store) {
    Faithful(s) && SchedulerInv(s) && ActionsInv(s) && ResourcesInv(s)
  }

  /** Nothing recorded is ever taken back. */
  ghost predicate Advance(s: Store, t: Store) {
    s.journal <= t.journal && RowsAdvance(s, t) && ActionsAdvance(s, t) && LeasesAdvance(s, t)
  }

  ghost predicate Sound(s: Store, t: Store) {
    OpenInv(s) ==> OpenInv(t) && Advance(s, t)
  }

  lemma AdvanceTransitive(s: Store, t: Store, u: Store)
    requires Advance(s, t) && Advance(t, u)
    ensures Advance(s, u)
  {
    hide RowsAdvance, ActionsAdvance, LeasesAdvance;
    RowsAdvanceTransitive(s, t, u);
    ActionsAdvanceTransitive(s, t, u);
    LeasesAdvanceTransitive(s, t, u);
  }

  lemma SoundReflexive(s: Store)
    ensures Sound(s, s)
  {
    hide OpenInv;
    ActionsAdvanceReflexive(s);
  }

  lemma SoundTransitive(s: Store, t: Store, u: Store)
    requires Sound(s, t) && Sound(t, u)
    ensures Sound(s, u)
  {
    hide OpenInv, ActionsAdvance, LeasesAdvance, RowsAdvance;
    if OpenInv(s) {
      RowsAdvanceTransitive(s, t, u);
      ActionsAdvanceTransitive(s, t, u);
      LeasesAdvanceTransitive(s, t, u);
    }
  }

  // ---------------------------------------------------------------- work confined to one area

  /** The tables no invariant area covers. */
  predicate SameSide(s: Store, t: Store) {
    s.steps == t.steps && s.deliveries == t.deliveries && s.outbox == t.outbox && s.inbox == t.inbox
  }

  /** Between s and t only one area's tables and streams changed. */
  ghost predicate Confined(s: Store, t: Store, area: Area) {
    && s.clock == t.clock && SameSide(s, t)
    && (Sequenced(s.journal) ==> Sequenced(t.journal))
    && s.journal <= t.journal
    && (forall other: Area :: other != area ==> Quiet(s, t, other))
    && (area != Threads ==> Within(s, t, area))
  }

  /** Every new event belongs to the area. */
  ghost predicate Within(s: Store, t: Store, area: Area) {
    forall i :: |s.journal| <= i < |t.journal| ==> InArea(t.journal[i].stream, area)
  }

  lemma ConfinedReflexive(s: Store, area: Area)
    ensures Confined(s, s, area)
  {
  }

  lemma ConfinedTransitive(s: Store, t: Store, u: Store, area: Area)
    requires Confined(s, t, area) && Confined(t, u, area)
    ensures Confined(s, u, area)
  {
    assert area != Threads ==> Within(s, u, area);
    hide Within;
    forall other: Area | other != area
      ensures Quiet(s, u, other)
    {
      assert Quiet(s, t, other) && Quiet(t, u, other);
    }
  }

  /** One event of the area, whatever it did to the area's own tables. */
  lemma OneEventConfined(s: Store, t: Store, draft: Draft, area: Area)
    requires t.journal == Insert(s.journal, draft) && t.clock == s.clock && SameSide(s, t)
    requires forall other: Area :: other != area ==> !InArea(draft.stream, other) && SameTables(s, t, other)
    requires area != Threads ==> InArea(draft.stream, area)
    ensures Confined(s, t, area)
  {
    if Sequenced(s.journal) {
      var next := Insert(s.journal, draft);
      LastSequenceIsCount(s.journal, draft.stream);
      forall i | 0 <= i < |next|
        ensures next[i].position == i && next[i].sequence == Count(next[..i], next[i].stream) + 1
      {
        assert next[..i] == s.journal[..i];
        assert i == |s.journal| ==> s.journal[..i] == s.journal;
      }
    }
  }

  lemma {:induction false} ReplayQuiet(before: seq<Event>, more: seq<Event>, thread: Id)
    requires forall e :: e in more ==> !e.stream.ThreadStream?
    ensures Replay(before + more, thread) == Replay(before, thread)
    decreases |more|
  {
    hide Reduce;
    if more == [] {
      assert before + more == before;
    } else {
      assert (before + more)[..|before + more| - 1] == before + more[..|more| - 1];
      ReplayQuiet(before, more[..|more| - 1], thread);
    }
  }

  lemma QuietKeepsFaithful(s: Store, t: Store)
    requires Faithful(s) && Quiet(s, t, Threads) && Sequenced(t.journal)
    ensures Faithful(t)
  {
    hide Replay, Sequenced;
    forall thread
      ensures Replay(t.journal, thread) == Ok(Lookup(t.threads, thread))
    {
      assert Replay(s.journal, thread) == Ok(Lookup(s.threads, thread));
      assert t.journal == s.journal + t.journal[|s.journal|..];
      ReplayQuiet(s.journal, t.journal[|s.journal|..], thread);
    }
  }

  /** Scheduler work that keeps the scheduler's own invariant is sound. */
  lemma JobWorkSound(s: Store, t: Store)
    requires Confined(s, t, Jobs)
    requires SchedulerInv(s) ==> SchedulerInv(t) && RowsAdvance(s, t)
    ensures Sound(s, t)
  {
    hide SchedulerInv, RowsAdvance, ActionsInv, ActionsAdvance, ResourcesInv, LeasesAdvance, Quiet, Replay,
      Sequenced, Within;
    if OpenInv(s) {
      QuietKeepsFaithful(s, t);
      QuietKeepsActions(s, t);
      QuietKeepsResources(s, t);
    }
  }

  lemma ActionWorkSound(s: Store, t: Store)
    requires Confined(s, t, Area.Actions)
    requires ActionsInv(s) ==> ActionsInv(t) && ActionsAdvance(s, t)
    ensures Sound(s, t)
  {
    hide SchedulerInv, RowsAdvance, ActionsInv, ActionsAdvance, ResourcesInv, LeasesAdvance, Quiet, Replay,
      Sequenced, Within;
    if OpenInv(s) {
      QuietKeepsFaithful(s, t);
      QuietKeepsScheduler(s, t);
      QuietKeepsResources(s, t);
    }
  }

  lemma ResourceWorkSound(s: Store, t: Store)
    requires Confined(s, t, Area.Resources)
    requires ResourcesInv(s) ==> ResourcesInv(t) && LeasesAdvance(s, t)
    ensures Sound(s, t)
  {
    hide SchedulerInv, RowsAdvance, ActionsInv, ActionsAdvance, ResourcesInv, LeasesAdvance, Quiet, Replay,
      Sequenced, Within;
    if OpenInv(s) {
      QuietKeepsFaithful(s, t);
      QuietKeepsScheduler(s, t);
      QuietKeepsActions(s, t);
    }
  }

  lemma ThreadWorkSound(s: Store, t: Store)
    requires Confined(s, t, Threads)
    requires Faithful(s) ==> Faithful(t)
    ensures Sound(s, t)
  {
    hide Faithful, SchedulerInv, RowsAdvance, ActionsInv, ActionsAdvance, ResourcesInv, LeasesAdvance, Quiet,
      Sequenced, Within;
    if OpenInv(s) {
      QuietKeepsScheduler(s, t);
      QuietKeepsActions(s, t);
      QuietKeepsResources(s, t);
    }
  }

  /** Steps, deliveries, outbox and inbox rows live outside the four areas. */
  ghost predicate SameAreas(s: Store, t: Store) {
    s.clock == t.clock && forall area: Area :: SameTables(s, t, area)
  }

  lemma AsideSound(s: Store, t: Store)
    requires t.journal == s.journal && SameAreas(s, t)
    ensures Sound(s, t)
  {
    hide SchedulerInv, RowsAdvance, ActionsInv, ActionsAdvance, ResourcesInv, LeasesAdvance, SameTables, Replay,
      Sequenced;
    assert forall area: Area :: SameTables(s, t, area) ==> Quiet(s, t, area);
    if OpenInv(s) {
      assert Sequenced(t.journal) by {
        assert Sequenced(s.journal);
      }
      QuietKeepsFaithful(s, t);
      QuietKeepsScheduler(s, t);
      QuietKeepsActions(s, t);
      QuietKeepsResources(s, t);
    }
  }

  lemma LogSound(s: Store, stream: Stream, thread: Option<Id>, origin: Origin, body: Body)
    requires forall area: Area :: !InArea(stream, area)
    ensures Sound(s, Log(s, stream, thread, origin, body))
    ensures Confined(s, Log(s, stream, thread, origin, body), Threads)
  {
    hide Replay, Sequenced, Sound;
    var t := Log(s, stream, thread, origin, body);
    OneEventConfined(s, t, DraftOf(stream, thread, origin, body), Threads);
    assert !InArea(stream, Threads);
    assert forall i :: |s.journal| <= i < |t.journal| ==> t.journal[i].stream == stream;
    assert Quiet(s, t, Threads);
    assert Faithful(s) ==> Sequenced(t.journal);
    if Faithful(s) {
      QuietKeepsFaithful(s, t);
    }
    ThreadWorkSound(s, t);
  }

  // ---------------------------------------------------------------- Thread events

  lemma EmitDraftSound(s: Store, thread: Id, draft: Draft)
    requires draft.stream == ThreadStream(thread) && EmitDraft(s, thread, draft).Ok?
    ensures Sound(s, Committed(s, EmitDraft(s, thread, draft)))
    ensures Confined(s, Committed(s, EmitDraft(s, thread, draft)), Threads)
  {
    hide Reduce, Confined, Sequenced, Sound;
    var t := EmitDraft(s, thread, draft).value;
    OneEventConfined(s, t, draft, Threads);
    if Faithful(s) {
      forall other
        ensures Replay(t.journal, other) == Ok(Lookup(t.threads, other))
      {
        assert Replay(s.journal, other) == Ok(Lookup(s.threads, other));
      }
    }
    ThreadWorkSound(s, t);
  }

  lemma EmitSound(s: Store, thread: Id, origin: Origin, change: ThreadEvent)
    requires Emit(s, thread, origin, change).Ok?
    ensures Sound(s, Committed(s, Emit(s, thread, origin, change)))
    ensures Confined(s, Committed(s, Emit(s, thread, origin, change)), Threads)
  {
    hide Confined, EmitDraft, Sound;
    EmitDraftSound(s, thread, ThreadDraft(thread, origin, change));
  }

  lemma {:induction false} EmitDraftsSound(s: Store, thread: Id, drafts: seq<Draft>)
    requires forall d :: d in drafts ==> d.stream == ThreadStream(thread)
    requires EmitDrafts(s, thread, drafts).Ok?
    ensures Sound(s, Committed(s, EmitDrafts(s, thread, drafts)))
    ensures Confined(s, Committed(s, EmitDrafts(s, thread, drafts)), Threads)
    decreases |drafts|
  {
    hide Sound, Confined, EmitDraft;
    if drafts == [] {
      SoundReflexive(s);
      ConfinedReflexive(s, Threads);
    } else {
      var n := |drafts| - 1;
      EmitDraftsSound(s, thread, drafts[..n]);
      var earlier := EmitDrafts(s, thread, drafts[..n]).value;
      EmitDraftSound(earlier, thread, drafts[n]);
      SoundTransitive(s, earlier, EmitDraft(earlier, thread, drafts[n]).value);
      ConfinedTransitive(s, earlier, EmitDraft(earlier, thread, drafts[n]).value, Threads);
    }
  }

  // ---------------------------------------------------------------- scheduler

  lemma WriteJobConfined(s: Store, runId: Id, job: SchedulerJob, origin: Origin, event: JobEvent)
    ensures Confined(s, WriteJob(s, runId, job, origin, event), Jobs)
  {
    OneEventConfined(s, WriteJob(s, runId, job, origin, event),
                     DraftOf(JobStream(runId), Some(job.threadId), origin, OfJob(event)), Jobs);
  }

  lemma InsertJobSound(s: Store, job: SchedulerJob, origin: Origin)
    requires job == NewJob(
      job.runId, job.threadId, job.priority, job.availableAt, job.maxAttempts, job.executorKey, origin.at)
    requires job.maxAttempts >= 1
    requires InsertJob(s, job, origin).Ok?
    ensures Sound(s, Committed(s, InsertJob(s, job, origin)))
  {
    hide SchedulerInv, RowsAdvance, Sound, Confined, WriteJob;
    var event := RunEnqueued(job.priority, job.availableAt, job.maxAttempts, job.executorKey);
    WriteJobConfined(s, job.runId, job, origin, event);
    if SchedulerInv(s) {
      WriteKeepsInv(s, job.runId, job, origin, event);
    }
    JobWorkSound(s, InsertJob(s, job, origin).value);
  }

  lemma {:induction false} SweepConfined(s: Store, now: Time, rows: seq<Id>)
    ensures Confined(s, Sweep(s, now, rows), Jobs)
    decreases |rows|
  {
    hide Confined, WriteJob;
    if rows == [] {
      ConfinedReflexive(s, Jobs);
    } else {
      var rest := Sweep(s, now, rows[..|rows| - 1]);
      var r := rows[|rows| - 1];
      SweepConfined(s, now, rows[..|rows| - 1]);
      if Exhausted(rest, r, now) {
        var text := Some("worker lease expired after final attempt");
        var job := rest.jobs[r].(state := JobState.Failed, lease := None, lastError := text, updatedAt := now);
        WriteJobConfined(rest, r, job, Origin("scheduler-recovery", now, None), RunFailed(job.token, text));
        ConfinedTransitive(s, rest, Sweep(s, now, rows), Jobs);
      }
    }
  }

  lemma ClaimNextConfined(
    s: Store, worker: string, leaseId: string, seconds: int, keys: Option<set<string>>, rows: seq<Id>,
    pick: Option<Id>, now: Time)
    requires ClaimNextRun(s, worker, leaseId, seconds, keys, rows, pick, now).Ok?
    ensures Confined(s, ClaimedStore(s, ClaimNextRun(s, worker, leaseId, seconds, keys, rows, pick, now)), Jobs)
  {
    hide Confined, Sweep, WriteJob;
    if keys == Some({}) {
      ConfinedReflexive(s, Jobs);
    } else {
      var swept := Sweep(s, now, rows);
      SweepConfined(s, now, rows);
      assert Confined(swept, ClaimPicked(swept, worker, leaseId, (now + seconds), pick, now).0, Jobs) by {
        if pick.None? || pick.value !in swept.jobs {
          ConfinedReflexive(swept, Jobs);
        } else {
          var row := swept.jobs[pick.value];
          var job := row.(
            state := JobState.Claimed, attempts := row.attempts + 1, token := row.token + 1,
            lease := Some(Lease(worker, leaseId, (now + seconds))), updatedAt := now);
          WriteJobConfined(swept, pick.value, job, Origin(worker, now, None),
                           RunClaimed(leaseId, job.token, (now + seconds), job.attempts, row.state.Claimed?));
        }
      }
      ConfinedTransitive(s, swept, ClaimPicked(swept, worker, leaseId, now + seconds, pick, now).0, Jobs);
    }
  }

  lemma HeartbeatSound(s: Store, claim: WorkerClaim, seconds: int)
    requires HeartbeatRun(s, claim, seconds, s.clock).Ok?
    ensures Sound(s, Committed(s, HeartbeatRun(s, claim, seconds, s.clock)))
  {
    hide RowsAdvance, Sound, Confined, WriteJob, ClaimNextRun;
    var origin, event :=
      Origin(claim.worker, s.clock, None), RunHeartbeat(claim.leaseId, claim.token, s.clock + seconds);
    var job := s.jobs[claim.runId].(
      lease := Some(Lease(claim.worker, claim.leaseId, s.clock + seconds)), updatedAt := s.clock);
    WriteJobConfined(s, claim.runId, job, origin, event);
    if SchedulerInv(s) {
      WriteKeepsInv(s, claim.runId, job, origin, event);
    }
    JobWorkSound(s, HeartbeatRun(s, claim, seconds, s.clock).value);
  }

  lemma SettleJobConfined(s: Store, runId: Id, how: Settlement, errorText: Option<string>, origin: Origin)
    requires runId in s.jobs
    ensures Confined(s, SettleJob(s, runId, how, errorText, origin), Jobs)
  {
    hide Confined, WriteJob;
    var row := s.jobs[runId].(lease := None, lastError := errorText, updatedAt := origin.at);
    match how
    case Done => WriteJobConfined(s, runId, row.(state := JobState.Completed), origin, RunCompleted(row.token,
        errorText));
    case Retry(at) =>
      WriteJobConfined(s, runId, row.(state := JobState.Queued, availableAt := at), origin,
                       RunRetryScheduled(row.token, at, errorText));
    case GiveUp => WriteJobConfined(s, runId, row.(state := JobState.Failed), origin, RunFailed(row.token, errorText));
  }

  lemma SettleJobSound(s: Store, runId: Id, how: Settlement, errorText: Option<string>, origin: Origin)
    requires runId in s.jobs && JobAt(s, runId).state.Claimed?
    requires how.Retry? ==> JobAt(s, runId).attempts < JobAt(s, runId).maxAttempts
    ensures Sound(s, SettleJob(s, runId, how, errorText, origin))
  {
    hide Sound, Confined, ClaimNextRun, RowsAdvance, WriteJob;
    SettleJobConfined(s, runId, how, errorText, origin);
    if SchedulerInv(s) {
      var row := s.jobs[runId].(lease := None, lastError := errorText, updatedAt := origin.at);
      match how
      case Done =>
        WriteKeepsInv(s, runId, row.(state := JobState.Completed), origin, RunCompleted(row.token, errorText));
      case Retry(at) =>
        WriteKeepsInv(s, runId, row.(state := JobState.Queued, availableAt := at), origin,
                      RunRetryScheduled(row.token, at, errorText));
      case GiveUp =>
        WriteKeepsInv(s, runId, row.(state := JobState.Failed), origin, RunFailed(row.token, errorText));
    }
    JobWorkSound(s, SettleJob(s, runId, how, errorText, origin));
  }

  lemma CancelJobSound(s: Store, runId: Id, origin: Origin)
    ensures Sound(s, CancelJob(s, runId, origin))
    ensures Confined(s, CancelJob(s, runId, origin), Jobs)
  {
    hide Sound, Confined, WriteJob, ClaimNextRun;
    if runId in s.jobs && (s.jobs[runId].state.Queued? || s.jobs[runId].state.Claimed?) {
      var row := s.jobs[runId];
      WriteJobConfined(s, runId, row.(state := JobState.Cancelled, lease := None, updatedAt := origin.at), origin,
                       RunCancelled(row.state, row.token));
    } else {
      ConfinedReflexive(s, Jobs);
    }
    if SchedulerInv(s) {
      if runId in s.jobs && (s.jobs[runId].state.Queued? || s.jobs[runId].state.Claimed?) {
        var row := s.jobs[runId];
        WriteKeepsInv(s, runId, row.(state := JobState.Cancelled, lease := None, updatedAt := origin.at), origin,
                      RunCancelled(row.state, row.token));
      }
    }
    JobWorkSound(s, CancelJob(s, runId, origin));
  }

  // ---------------------------------------------------------------- actions

  lemma WriteIntentConfined(s: Store, intent: ActionIntent, origin: Origin, event: ActionEvent)
    ensures Confined(s, WriteIntent(s, intent, origin, event), Area.Actions)
  {
    OneEventConfined(s, WriteIntent(s, intent, origin, event),
                     DraftOf(ActionStream(intent.intentId), Some(intent.threadId), origin, OfAction(event)),
                     Area.Actions);
  }

  /** Action rows around an already written event. */
  lemma ActionTablesConfined(s: Store, t: Store, u: Store)
    requires Confined(s, t, Area.Actions)
    requires u.journal == t.journal && u.clock == t.clock && SameSide(t, u)
    requires forall other: Area :: other != Area.Actions ==> SameTables(t, u, other)
    ensures Confined(s, u, Area.Actions)
  {
    forall other: Area | other != Area.Actions
      ensures Quiet(s, u, other)
    {
      assert Quiet(s, t, other) && SameTables(t, u, other);
    }
  }

  lemma CreateIntentSound(
    s: Store, threadId: Id, runId: Id, capability: string, request: Artifact, key: string, requiresApproval: bool,
    intentId: Id, origin: Origin)
    requires CreateActionIntent(s, threadId, runId, capability, request, key, requiresApproval, intentId, origin).Ok?
    ensures Sound(
      s, Committed(s, CreateActionIntent(
        s, threadId, runId, capability, request, key, requiresApproval, intentId, origin)))
  {
    hide ActionsInv, ActionsAdvance, Sound, Confined, WriteIntent, NonBlank, SameRequest;
    var t := CreateActionIntent(s, threadId, runId, capability, request, key, requiresApproval, intentId, origin).value;
    if key in s.intentByKey && s.intentByKey[key] in s.intents {
      SoundReflexive(s);
    } else {
      var intent := ActionIntent(
        intentId, key, threadId, runId, capability, request, requiresApproval, ActionStatus.Pending, None, 0, None,
        origin.at, origin.at);
      WriteIntentConfined(s, intent, origin, IntentCreated(requiresApproval));
      ActionTablesConfined(s, WriteIntent(s, intent, origin, IntentCreated(requiresApproval)), t);
      if ActionsInv(s) {
        NewIntentKeepsInv(s, intent, origin, s.intentByKey[key := intentId]);
      }
      ActionWorkSound(s, t);
    }
  }

  lemma SetAttentionSound(s: Store, thread: Id, target: AttentionState, origin: Origin)
    requires SetAttention(s, thread, target, origin).Ok?
    ensures Sound(s, Committed(s, SetAttention(s, thread, target, origin)))
  {
    hide Sound, Confined, Emit;
    if s.threads[thread].attention == target {
      SoundReflexive(s);
    } else {
      EmitSound(s, thread, origin, AttentionChanged(target));
    }
  }

  lemma ClearAttentionSound(s: Store, thread: Id, now: Time)
    requires ClearAttention(s, thread, now).Ok?
    ensures Sound(s, Committed(s, ClearAttention(s, thread, now)))
  {
    hide Sound, SetAttention;
    if NothingPending(s, thread) {
      SetAttentionSound(s, thread, AttentionState.Calm, Origin("approval-gate", now, None));
    } else {
      SoundReflexive(s);
    }
  }

  lemma OpenApprovalSound(s: Store, approval: ApprovalRequest, origin: Origin)
    requires approval.intentId in s.intents && Row(s.intents, approval.intentId).requiresApproval
    requires approval.intentId !in s.approvalOf || Row(s.approvalOf, approval.intentId) !in s.approvals
    requires approval.approvalId !in s.approvals && approval.status.Pending?
    ensures Sound(s, OpenApproval(s, approval, origin))
  {
    var t := OpenApproval(s, approval, origin);
    assert Confined(s, t, Area.Actions) by {
      OneEventConfined(
        s, t,
        DraftOf(ApprovalStream(approval.approvalId), Some(s.intents[approval.intentId].threadId), origin,
                OfApproval(ApprovalRequested(approval.intentId))),
        Area.Actions);
    }
    hide ActionsInv, ActionsAdvance, Sound, Confined, OpenApproval;
    if ActionsInv(s) {
      OpenApprovalKeepsInv(s, approval, origin);
    }
    ActionWorkSound(s, t);
  }

  lemma CreateApprovalSound(
    s: Store, intentId: Id, riskLevel: string, requestedBy: string, reason: string, ttl: int,
    policy: Option<Artifact>, approvalId: Id, now: Time)
    requires CreateApproval(s, intentId, riskLevel, requestedBy, reason, ttl, policy, approvalId, now).Ok?
    ensures Sound(
      s, Committed(s, CreateApproval(s, intentId, riskLevel, requestedBy, reason, ttl, policy, approvalId, now)))
  {
    hide Sound, SetAttention, OpenApproval;
    if intentId in s.approvalOf && s.approvalOf[intentId] in s.approvals {
      SoundReflexive(s);
    } else {
      var approval := ApprovalRequest(
        approvalId, intentId, ApprovalState.Pending, riskLevel, requestedBy, reason, policy, now, now + ttl, now,
        None, None);
      var waiting := OpenApproval(s, approval, Origin(requestedBy, now, None));
      var thread := s.intents[intentId].threadId;
      var gate := Origin("approval-gate", now, None);
      OpenApprovalSound(s, approval, Origin(requestedBy, now, None));
      SetAttentionSound(waiting, thread, AttentionState.NeedsApproval, gate);
      SoundTransitive(s, waiting, SetAttention(waiting, thread, AttentionState.NeedsApproval, gate).value);
    }
  }

  lemma WriteApprovalConfined(
    s: Store, approval: ApprovalRequest, origin: Origin, event: ApprovalEvent, intents: map<Id, ActionIntent>)
    ensures Confined(s, WriteApproval(s, approval, origin, event).(intents := intents), Area.Actions)
  {
    OneEventConfined(
      s, WriteApproval(s, approval, origin, event).(intents := intents),
      DraftOf(ApprovalStream(approval.approvalId), OwnerThread(s, approval.intentId), origin, OfApproval(event)),
      Area.Actions);
  }

  lemma RecordDecisionSound(
    s: Store, approvalId: Id, decision: ApprovalState, actor: string, evidence: Option<Artifact>, at: Time)
    requires approvalId in s.approvals && Row(s.approvals, approvalId).status.Pending?
    requires decision.Approved? || decision.Denied?
    ensures Sound(s, RecordDecision(s, approvalId, decision, actor, evidence, at))
  {
    hide ActionsInv, ActionsAdvance, Sound, Confined, WriteApproval, DropIntent;
    var row := s.approvals[approvalId];
    var decided := row.(status := decision, updatedAt := at, resolvedBy := Some(actor), evidence := evidence);
    var intents := if decision.Denied? then DropIntent(s.intents, row.intentId, DENIED, at) else s.intents;
    WriteApprovalConfined(s, decided, Origin(actor, at, None), ApprovalDecided(row.intentId, decision), intents);
    if ActionsInv(s) {
      RecordDecisionKeepsInv(s, approvalId, decision, actor, evidence, at);
    }
    ActionWorkSound(s, RecordDecision(s, approvalId, decision, actor, evidence, at));
  }

  lemma {:induction false} ExpireRowsSound(s: Store, now: Time, rows: seq<Id>)
    ensures Sound(s, ExpireRows(s, now, rows))
    decreases |rows|
  {
    hide Sound, WriteApproval, Confined;
    if rows == [] {
      SoundReflexive(s);
    } else {
      var rest := ExpireRows(s, now, rows[..|rows| - 1]);
      var a := rows[|rows| - 1];
      ExpireRowsSound(s, now, rows[..|rows| - 1]);
      if Due(rest, a, now) {
        var row, gate := rest.approvals[a], Origin("approval-gate", now, None);
        var expired := row.(status := ApprovalState.Expired, updatedAt := now);
        var event, intents := ApprovalExpired(row.intentId), DropIntent(rest.intents, row.intentId, EXPIRED, now);
        WriteApprovalConfined(rest, expired, gate, event, intents);
        if ActionsInv(rest) {
          ResolutionKeepsInv(rest, expired, gate, event, intents);
        }
        ActionWorkSound(rest, ExpireApproval(rest, a, now));
        SoundTransitive(s, rest, ExpireApproval(rest, a, now));
      }
    }
  }

  lemma {:induction false} ClearAllSound(s: Store, now: Time, threads: seq<Id>)
    requires ClearAll(s, now, threads).Ok?
    ensures Sound(s, Committed(s, ClearAll(s, now, threads)))
    decreases |threads|
  {
    hide Sound, ClearAttention;
    if threads == [] {
      SoundReflexive(s);
    } else {
      var rest := ClearAll(s, now, threads[..|threads| - 1]).value;
      ClearAllSound(s, now, threads[..|threads| - 1]);
      ClearAttentionSound(rest, threads[|threads| - 1], now);
      SoundTransitive(s, rest, ClearAttention(rest, threads[|threads| - 1], now).value);
    }
  }

  lemma MarkConfined(s: Store, intentId: Id, now: Time)
    requires intentId in s.intents
    ensures Confined(s, MarkReconcile(s, intentId, now), Area.Actions)
  {
    hide Confined, WriteIntent;
    var row := s.intents[intentId];
    WriteIntentConfined(
      s,
      row.(status := ActionStatus.ReconcileRequired, lease := None,
           lastError := Some("action lease expired before a durable receipt"), updatedAt := now),
      Origin("recovery", now, None), ActionEvent.ReconciliationRequired(row.status, row.token));
  }

  lemma TakeActionConfined(s: Store, intentId: Id, lease: Lease, reconciling: bool, now: Time)
    requires TakeAction(s, intentId, lease, reconciling, now).Ok?
    ensures Confined(s, Committed(s, TakeAction(s, intentId, lease, reconciling, now)), Area.Actions)
  {
    hide Confined, WriteIntent, IsApproved;
    var status := if reconciling then ActionStatus.Recovering else ActionStatus.Executing;
    var next := Taken(s.intents[intentId], status, lease, now);
    WriteIntentConfined(s, next, Origin(lease.owner, now, None),
                        if reconciling then ReconciliationClaimed(lease.leaseId, next.token, lease.expiresAt)
                        else ExecutionClaimed(lease.leaseId, next.token, lease.expiresAt));
  }

  lemma TakeActionKeepsInv(s: Store, intentId: Id, lease: Lease, reconciling: bool, now: Time)
    requires ActionsInv(s) && TakeAction(s, intentId, lease, reconciling, now).Ok?
    ensures var t := Committed(s, TakeAction(s, intentId, lease, reconciling, now));
      ActionsInv(t) && ActionsAdvance(s, t)
  {
    hide ActionsAdvance, Insert;
    assert BooksOK(s, intentId) && GateOK(s, intentId);
    var state := if reconciling then ActionStatus.Recovering else ActionStatus.Executing;
    var next := Taken(s.intents[intentId], state, lease, now);
    var event :=
      if reconciling then ReconciliationClaimed(lease.leaseId, next.token, lease.expiresAt)
      else ExecutionClaimed(lease.leaseId, next.token, lease.expiresAt);
    SoundIntentKeepsInv(s, next, Origin(lease.owner, now, None), event, []);
    assert s.receipts + [] == s.receipts;
  }

  lemma ClaimActionSound(
    s: Store, intentId: Id, worker: string, leaseId: string, seconds: int, reconciling: bool, now: Time)
    requires ClaimAction(s, intentId, worker, leaseId, seconds, reconciling, now).Ok?
    ensures Sound(s, Committed(s, ClaimAction(s, intentId, worker, leaseId, seconds, reconciling, now)))
  {
    hide ActionsAdvance, ActionsInv, Sound, Confined, MarkReconcile, TakeAction;
    var t := ClaimAction(s, intentId, worker, leaseId, seconds, reconciling, now).value;
    var marked, lease := NoticeLapse(s, intentId, now), Lease(worker, leaseId, now + seconds);
    ActionsAdvanceReflexive(s);
    if ActionLapsed(s.intents[intentId], now) {
      MarkConfined(s, intentId, now);
      if ActionsInv(s) {
        MarkKeepsInv(s, intentId, now);
      }
    } else {
      ConfinedReflexive(s, Area.Actions);
    }
    TakeActionConfined(marked, intentId, lease, reconciling, now);
    ConfinedTransitive(s, marked, t, Area.Actions);
    if ActionsInv(s) {
      TakeActionKeepsInv(marked, intentId, lease, reconciling, now);
      ActionsAdvanceTransitive(s, marked, t);
    }
    ActionWorkSound(s, t);
  }

  lemma RecordReceiptConfined(
    s: Store, claim: ActionClaim, outcome: ReceiptOutcome, provider: string, response: Option<Artifact>,
    receiptId: Id, now: Time)
    requires RecordReceipt(s, claim, outcome, provider, response, receiptId, now).Ok?
    ensures Confined(
      s, Committed(s, RecordReceipt(s, claim, outcome, provider, response, receiptId, now)), Area.Actions)
  {
    hide Confined, WriteIntent;
    var t := RecordReceipt(s, claim, outcome, provider, response, receiptId, now).value;
    if HasReceipt(s.receipts, receiptId) {
      ConfinedReflexive(s, Area.Actions);
    } else {
      var next := AfterReceipt(outcome);
      var settled := s.intents[claim.intentId].(
        status := next, lease := None, updatedAt := now,
        lastError := if next.ReconcileRequired? then Some("receipt was inconclusive") else None);
      var event := ReceiptRecorded(receiptId, outcome, next, claim.token);
      WriteIntentConfined(s, settled, Origin(claim.worker, now, None), event);
      ActionTablesConfined(s, WriteIntent(s, settled, Origin(claim.worker, now, None), event), t);
    }
  }

  lemma RecordReceiptSound(
    s: Store, claim: ActionClaim, outcome: ReceiptOutcome, provider: string, response: Option<Artifact>,
    receiptId: Id, now: Time)
    requires RecordReceipt(s, claim, outcome, provider, response, receiptId, now).Ok?
    ensures Sound(s, Committed(s, RecordReceipt(s, claim, outcome, provider, response, receiptId, now)))
  {
    hide ActionsAdvance, Sound, Confined, WriteIntent;
    var t := RecordReceipt(s, claim, outcome, provider, response, receiptId, now).value;
    if HasReceipt(s.receipts, receiptId) {
      SoundReflexive(s);
    } else {
      RecordReceiptConfined(s, claim, outcome, provider, response, receiptId, now);
      if ActionsInv(s) {
        var next := AfterReceipt(outcome);
        var settled := s.intents[claim.intentId].(
          status := next, lease := None, updatedAt := now,
          lastError := if next.ReconcileRequired? then Some("receipt was inconclusive") else None);
        assert BooksOK(s, claim.intentId) && GateOK(s, claim.intentId);
        SoundIntentKeepsInv(
          s, settled, Origin(claim.worker, now, None), ReceiptRecorded(receiptId, outcome, next, claim.token),
          [ActionReceipt(receiptId, claim.intentId, outcome, provider, response, now)]);
      }
      ActionWorkSound(s, t);
    }
  }

  lemma {:induction false} RecoverSound(s: Store, now: Time, rows: seq<Id>)
    ensures Sound(s, RecoverIncomplete(s, now, rows))
    decreases |rows|
  {
    hide ActionsInv, ActionsAdvance, Sound, Confined, MarkReconcile;
    if rows == [] {
      SoundReflexive(s);
    } else {
      var rest := RecoverIncomplete(s, now, rows[..|rows| - 1]);
      var i := rows[|rows| - 1];
      RecoverSound(s, now, rows[..|rows| - 1]);
      if i in rest.intents && ActionLapsed(rest.intents[i], now) {
        MarkConfined(rest, i, now);
        if ActionsInv(rest) {
          MarkKeepsInv(rest, i, now);
        }
        ActionWorkSound(rest, MarkReconcile(rest, i, now));
        SoundTransitive(s, rest, MarkReconcile(rest, i, now));
      }
    }
  }

  lemma {:induction false} CancelPendingConfined(s: Store, runId: Id, rows: seq<Id>, reason: string, origin: Origin)
    ensures Confined(s, CancelPendingActions(s, runId, rows, reason, origin), Area.Actions)
    decreases |rows|
  {
    hide Confined, WriteApproval, WriteIntent;
    if rows == [] {
      ConfinedReflexive(s, Area.Actions);
    } else {
      var rest := CancelPendingActions(s, runId, rows[..|rows| - 1], reason, origin);
      var i := rows[|rows| - 1];
      CancelPendingConfined(s, runId, rows[..|rows| - 1], reason, origin);
      if WaitingFor(rest, i, runId) {
        assert Confined(rest, CancelIntent(rest, i, reason, origin), Area.Actions) by {
          var intent := rest.intents[i].(
            status := ActionStatus.Cancelled, lastError := Some(reason), updatedAt := origin.at);
          if i in rest.approvalOf && rest.approvalOf[i] in rest.approvals
             && rest.approvals[rest.approvalOf[i]].status.Pending? {
            var row := rest.approvals[rest.approvalOf[i]].(
              status := ApprovalState.Cancelled, updatedAt := origin.at, resolvedBy := Some(origin.actor));
            var quiet := WriteApproval(rest, row, origin, ApprovalCancelled(i));
            WriteApprovalConfined(rest, row, origin, ApprovalCancelled(i), quiet.intents);
            assert quiet.(intents := quiet.intents) == quiet;
            WriteIntentConfined(quiet, intent, origin, IntentCancelled(reason));
            ConfinedTransitive(rest, quiet, WriteIntent(quiet, intent, origin, IntentCancelled(reason)), Area.Actions);
          } else {
            WriteIntentConfined(rest, intent, origin, IntentCancelled(reason));
          }
        }
        ConfinedTransitive(s, rest, CancelIntent(rest, i, reason, origin), Area.Actions);
      }
    }
  }

  lemma CancelPendingSound(s: Store, runId: Id, rows: seq<Id>, reason: string, origin: Origin)
    ensures Sound(s, CancelPendingActions(s, runId, rows, reason, origin))
  {
    hide ActionsInv, ActionsAdvance, Sound, Confined, CancelPendingActions;
    CancelPendingConfined(s, runId, rows, reason, origin);
    if ActionsInv(s) {
      CancelPendingKeepsInv(s, runId, rows, reason, origin);
    }
    ActionWorkSound(s, CancelPendingActions(s, runId, rows, reason, origin));
  }

  // ---------------------------------------------------------------- resources

  lemma WriteLeaseConfined(s: Store, row: ResourceLease, origin: Origin, event: ResourceEvent, fences: map<string, nat>)
    ensures Confined(s, WriteLease(s, row, origin, event).(fences := fences), Area.Resources)
  {
    OneEventConfined(
      s, WriteLease(s, row, origin, event).(fences := fences),
      DraftOf(ResourceStream(row.resourceKey), Some(row.threadId), origin, OfResource(event)), Area.Resources);
  }

  lemma {:induction false} ExpireLeasesConfined(s: Store, key: string, now: Time, rows: seq<string>)
    ensures Confined(s, ExpireLeases(s, key, now, rows), Area.Resources)
    decreases |rows|
  {
    hide Confined, WriteLease;
    if rows == [] {
      ConfinedReflexive(s, Area.Resources);
    } else {
      var rest := ExpireLeases(s, key, now, rows[..|rows| - 1]);
      var l := rows[|rows| - 1];
      ExpireLeasesConfined(s, key, now, rows[..|rows| - 1]);
      if l in rest.leases && Overdue(rest.leases[l], key, now) {
        var t := WriteLease(rest, rest.leases[l].(status := LeaseStatus.Expired), Origin("resource-coordinator", now,
          None),
                            LeaseExpired(l, rest.leases[l].token));
        WriteLeaseConfined(rest, rest.leases[l].(status := LeaseStatus.Expired), Origin("resource-coordinator", now,
          None),
                           LeaseExpired(l, rest.leases[l].token), t.fences);
        assert t.(fences := t.fences) == t;
        ConfinedTransitive(s, rest, t, Area.Resources);
      }
    }
  }

  lemma AcquireSound(
    s: Store, key: string, mode: AccessMode, owner: Id, thread: Id, seconds: int, actor: string, leaseId: string,
    rows: seq<string>)
    requires AcquireResource(s, key, mode, owner, thread, seconds, actor, leaseId, rows, s.clock).Ok?
    ensures Sound(s, Committed(s, AcquireResource(s, key, mode, owner, thread, seconds, actor, leaseId, rows, s.clock)))
  {
    hide ResourcesInv, LeasesAdvance, Sound, Confined, ExpireLeases, WriteLease;
    var swept, origin := ExpireLeases(s, key, s.clock, rows), Origin(actor, s.clock, None);
    ExpireLeasesConfined(s, key, s.clock, rows);
    var row := ResourceLease(
      leaseId, key, mode, owner, thread, LastToken(swept, key) + 1, s.clock, s.clock + seconds, LeaseStatus.Active);
    var t := GrantLease(swept, row, origin);
    WriteLeaseConfined(
      swept, row, origin, LeaseAcquired(leaseId, mode, row.token, row.expiresAt), swept.fences[key := row.token]);
    ConfinedTransitive(s, swept, t, Area.Resources);
    if ResourcesInv(s) {
      ExpireKeepsInv(s, key, s.clock, rows);
      GrantKeepsInv(swept, row, origin);
      LeasesAdvanceTransitive(s, swept, t);
    }
    ResourceWorkSound(s, t);
  }

  // ---------------------------------------------------------------- time

  function Tick(s: Store, now: Time): Store {
    s.(clock := now)
  }

  ghost predicate KeyedIntent(s: Store, i: Id) {
    i in s.intents ==> Row(s.intents, i).intentId == i
  }

  lemma IntentKeyed(s: Store, i: Id)
    requires OpenInv(s)
    ensures KeyedIntent(s, i)
  {
    hide Faithful, SchedulerInv, ResourcesInv, Balanced, GateOK, LedgerOf, LegalJournal;
    assert BooksOK(s, i);
  }

  lemma TickSound(s: Store, now: Time)
    requires s.clock <= now
    ensures Sound(s, Tick(s, now))
  {
    hide SchedulerInv, RowsAdvance, ActionsInv, ActionsAdvance, ResourcesInv, LeasesAdvance, Replay, Sequenced;
    var t := Tick(s, now);
    if OpenInv(s) {
      assert Faithful(t) by {
        QuietKeepsFaithful(s, Tick(s, now));
      }
      QuietKeepsScheduler(s, t);
      QuietKeepsActions(s, t);
      QuietKeepsResources(s, t);
    }
  }

  // =========================================================================== the life cycle
  // Every life-cycle and inbox transaction keeps the whole store's invariant.

  lemma SubmitSound(s: Store, sub: TaskSubmission, now: Time)
    requires SubmitTask(s, sub, now).Ok?
    ensures Sound(s, Committed(s, SubmitTask(s, sub, now)))
  {
    hide Sound, Confined, EmitDrafts, InsertJob, SameSubmission, NonBlank;
    if sub.threadId in s.threads {
      SoundReflexive(s);
    } else {
      var drafts := SubmissionDrafts(sub, now);
      assert forall d :: d in SubmissionDrafts(sub, now) ==> d.stream == ThreadStream(sub.threadId);
      EmitDraftsSound(s, sub.threadId, drafts);
      var created := EmitDrafts(s, sub.threadId, drafts).value;
      var job := NewJob(sub.runId, sub.threadId, sub.priority, now, sub.maxAttempts, sub.executorKey, now);
      InsertJobSound(created, job, Origin("scheduler", now, sub.correlation));
      SoundTransitive(s, created, InsertJob(created, job, Origin("scheduler", now, sub.correlation)).value);
    }
  }

  lemma StartSound(s: Store, claim: WorkerClaim, now: Time)
    requires StartClaimedRun(s, claim, now).Ok?
    ensures Sound(s, Committed(s, StartClaimedRun(s, claim, now)))
  {
    hide Sound, Confined, Emit, Live;
    var p := s.threads[claim.threadId];
    var run := p.runs[claim.runId];
    var origin := Origin(claim.worker, now, None);
    SoundReflexive(s);
    var awake := s;
    if !p.actual.Running? {
      awake := Emit(s, claim.threadId, origin, ThreadStateChanged(p.actual, ThreadState.Running, [])).value;
      EmitSound(s, claim.threadId, origin, ThreadStateChanged(p.actual, ThreadState.Running, []));
    }
    if !run.state.Running? {
      var change := RunStateChanged(claim.runId, run.state, RunState.Running, [], None, None);
      EmitSound(awake, claim.threadId, origin, change);
      SoundTransitive(s, awake, Emit(awake, claim.threadId, origin, change).value);
    }
  }

  lemma SettleThreadSound(
    s: Store, claim: WorkerClaim, how: Settlement, output: Option<Artifact>, error: Option<string>, origin: Origin)
    requires claim.threadId in s.threads && claim.runId in ThreadAt(s, claim.threadId).runs
    requires SettleThread(s, claim, how, output, error, origin).Ok?
    ensures Sound(s, Committed(s, SettleThread(s, claim, how, output, error, origin)))
    ensures Confined(s, Committed(s, SettleThread(s, claim, how, output, error, origin)), Threads)
  {
    hide Sound, Confined, Emit;
    var t, p := claim.threadId, s.threads[claim.threadId];
    var first := RunStateChanged(claim.runId, p.runs[claim.runId].state, RunTarget(how), [], Some(output), error);
    var second := ThreadStateChanged(p.actual, ThreadTarget(how), []);
    var a := Emit(s, t, origin, first).value;
    var b := Emit(a, t, origin, second).value;
    EmitSound(s, t, origin, first);
    EmitSound(a, t, origin, second);
    SoundTransitive(s, a, b);
    ConfinedTransitive(s, a, b, Threads);
    if how.GiveUp? && !p.attention.Failed? {
      var c := Emit(b, t, origin, AttentionChanged(AttentionState.Failed)).value;
      EmitSound(b, t, origin, AttentionChanged(AttentionState.Failed));
      SoundTransitive(s, b, c);
      ConfinedTransitive(s, b, c, Threads);
    }
  }

  /** Work confined to the Threads leaves every job row where it was. */
  lemma ThreadsKeepJobs(s: Store, t: Store)
    requires Confined(s, t, Threads)
    ensures s.jobs == t.jobs
  {
    assert Quiet(s, t, Jobs);
  }

  lemma BeginStepSound(
    s: Store, claim: WorkerClaim, stepId: Id, ordinal: nat, kind: StepKind, providerKey: string,
    providerVersion: string, inputs: seq<Artifact>, now: Time)
    requires BeginClaimedStep(s, claim, stepId, ordinal, kind, providerKey, providerVersion, inputs, now).Ok?
    ensures Sound(
      s, Committed(s, BeginClaimedStep(s, claim, stepId, ordinal, kind, providerKey, providerVersion, inputs, now)))
  {
    hide Sound, Confined, Log, Live, SlotTaken, NonBlank;
    var t := BeginClaimedStep(s, claim, stepId, ordinal, kind, providerKey, providerVersion, inputs, now).value;
    if stepId in s.steps {
      SoundReflexive(s);
    } else {
      var origin := Origin(claim.worker, now, None);
      var a := Log(s, StepStream(stepId), Some(claim.threadId), origin, StepCreated);
      var b := Log(a, StepStream(stepId), Some(claim.threadId), origin, StepStarted);
      LogSound(s, StepStream(stepId), Some(claim.threadId), origin, StepCreated);
      LogSound(a, StepStream(stepId), Some(claim.threadId), origin, StepStarted);
      AsideSound(b, t);
      SoundTransitive(s, a, b);
      SoundTransitive(s, b, t);
    }
  }

  lemma FinishStepSound(
    s: Store, claim: WorkerClaim, stepId: Id, outputs: seq<Artifact>, verifierResult: Option<Artifact>,
    errorCode: Option<string>, now: Time)
    requires FinishClaimedStep(s, claim, stepId, outputs, verifierResult, errorCode, now).Ok?
    ensures Sound(s, Committed(s, FinishClaimedStep(s, claim, stepId, outputs, verifierResult, errorCode, now)))
  {
    hide Sound, Confined, Log, Live;
    var t := FinishClaimedStep(s, claim, stepId, outputs, verifierResult, errorCode, now).value;
    var origin, stream := Origin(claim.worker, now, None), StepStream(stepId);
    var a := s;
    SoundReflexive(s);
    if outputs != [] {
      a := Log(s, stream, Some(claim.threadId), origin, StepOutputs);
      LogSound(s, stream, Some(claim.threadId), origin, StepOutputs);
    }
    var b := Log(a, stream, Some(claim.threadId), origin, StepEnded(errorCode.None?));
    LogSound(a, stream, Some(claim.threadId), origin, StepEnded(errorCode.None?));
    AsideSound(b, t);
    SoundTransitive(s, a, b);
    SoundTransitive(s, b, t);
  }

  lemma CloseThreadSound(s: Store, claim: WorkerClaim, delivery: Id, primary: Artifact, origin: Origin)
    requires claim.threadId in s.threads && CloseThread(s, claim, delivery, primary, origin).Ok?
    ensures Sound(s, Committed(s, CloseThread(s, claim, delivery, primary, origin)))
    ensures Confined(s, Committed(s, CloseThread(s, claim, delivery, primary, origin)), Threads)
  {
    hide Sound, Confined, Emit;
    var t := claim.threadId;
    var change := RunStateChanged(claim.runId, RunState.Running, RunState.Completed, [], Some(Some(primary)), None);
    var moved := ThreadStateChanged(s.threads[t].actual, ThreadState.Delivered, []);
    var a := Emit(s, t, origin, DeliveryRecorded(delivery)).value;
    var b := Emit(a, t, origin, change).value;
    var c := Emit(b, t, origin, moved).value;
    var d := Emit(c, t, origin, AttentionChanged(AttentionState.DeliveryReady)).value;
    EmitSound(s, t, origin, DeliveryRecorded(delivery));
    EmitSound(a, t, origin, change);
    EmitSound(b, t, origin, moved);
    EmitSound(c, t, origin, AttentionChanged(AttentionState.DeliveryReady));
    SoundTransitive(s, a, b);
    SoundTransitive(s, b, c);
    SoundTransitive(s, c, d);
    ConfinedTransitive(s, a, b, Threads);
    ConfinedTransitive(s, b, c, Threads);
    ConfinedTransitive(s, c, d, Threads);
  }

  lemma FinalizeSound(
    s: Store, claim: WorkerClaim, executorKey: string, primary: Artifact, report: Artifact, summary: Artifact,
    supporting: seq<Artifact>, now: Time)
    requires FinalizeDelivery(s, claim, executorKey, primary, report, summary, supporting, now).Ok?
    ensures Sound(s, Committed(s, FinalizeDelivery(s, claim, executorKey, primary, report, summary, supporting, now)))
  {
    hide Sound, CloseThread, SettleJob, Log, DeliveryClashes, NextDelivery, ClaimNextRun;
    var row := NextDelivery(s, claim, primary, report, summary, supporting, now);
    var origin, outbox := Origin(claim.worker, now, None), Origin("outbox", now, None);
    var stream, thread := DeliveryStream(row.deliveryId), Some(claim.threadId);
    var prepared := Log(s, stream, thread, origin, DeliveryPrepared(row.version));
    LogKeepsTables(s, stream, thread, origin, DeliveryPrepared(row.version));
    LogSound(s, stream, thread, origin, DeliveryPrepared(row.version));
    var closed := CloseThread(prepared, claim, row.deliveryId, primary, origin).value;
    CloseThreadSound(prepared, claim, row.deliveryId, primary, origin);
    assert prepared.jobs == closed.jobs by {
      assert Quiet(prepared, closed, Jobs);
    }
    var settled := SettleJob(closed, claim.runId, Done, None, origin);
    SettleJobSound(closed, claim.runId, Done, None, origin);
    var notice := DeliveryNotified(OutboxOf(row.deliveryId));
    var noted := Log(settled, stream, thread, outbox, notice);
    LogSound(settled, stream, thread, outbox, notice);
    LogKeepsTables(settled, stream, thread, outbox, notice);
    var u := FinalizeDelivery(s, claim, executorKey, primary, report, summary, supporting, now).value;
    AsideSound(noted, u);
    SoundTransitive(s, prepared, closed);
    SoundTransitive(s, closed, settled);
    SoundTransitive(s, settled, noted);
    SoundTransitive(s, noted, u);
  }

  lemma LogKeepsTables(s: Store, stream: Stream, thread: Option<Id>, origin: Origin, body: Body)
    ensures var t := Log(s, stream, thread, origin, body); t == s.(journal := t.journal)
  {
  }

  lemma PresentSound(s: Store, index: nat, actor: string, now: Time)
    requires PresentDelivery(s, index, actor, now).Ok?
    ensures Sound(s, Committed(s, PresentDelivery(s, index, actor, now)))
  {
    hide Sound, Confined, Log, NonBlank;
    var t := PresentDelivery(s, index, actor, now).value;
    if s.deliveries[index].state.Presented? {
      SoundReflexive(s);
    } else {
      var row, origin := s.deliveries[index], Origin(actor, now, None);
      var a := Log(s, DeliveryStream(row.deliveryId), Some(row.threadId), origin, DeliveryShown);
      LogSound(s, DeliveryStream(row.deliveryId), Some(row.threadId), origin, DeliveryShown);
      AsideSound(a, t);
      SoundTransitive(s, a, t);
    }
  }

  // ---------------------------------------------------------------- updates

  lemma CancelRunSound(s: Store, thread: Id, runId: Id, rows: seq<Id>, reason: string, origin: Origin)
    requires CancelRun(s, thread, runId, rows, reason, origin).Ok?
    ensures Sound(s, Committed(s, CancelRun(s, thread, runId, rows, reason, origin)))
  {
    hide Sound, Confined, CancelPendingActions, Emit, CancelJob, Terminal;
    if thread !in s.threads || runId !in s.threads[thread].runs || Terminal(s.threads[thread].runs[runId].state) {
      SoundReflexive(s);
    } else {
      var dropped := CancelPendingActions(s, runId, rows, reason, origin);
      var change := RunStateChanged(runId, s.threads[thread].runs[runId].state, RunState.Cancelled, [], None, None);
      var ended := Emit(dropped, thread, origin, change).value;
      CancelPendingSound(s, runId, rows, reason, origin);
      EmitSound(dropped, thread, origin, change);
      CancelJobSound(ended, runId, origin);
      SoundTransitive(s, dropped, ended);
      SoundTransitive(s, ended, CancelJob(ended, runId, origin));
    }
  }

  lemma {:induction false} CancelRunsSound(s: Store, thread: Id, runs: seq<Id>, rows: seq<Id>, reason: string,
      origin: Origin)
    requires CancelRuns(s, thread, runs, rows, reason, origin).Ok?
    ensures Sound(s, Committed(s, CancelRuns(s, thread, runs, rows, reason, origin)))
    decreases |runs|
  {
    hide Sound, CancelRun;
    if runs == [] {
      SoundReflexive(s);
    } else {
      var n := |runs| - 1;
      var earlier := CancelRuns(s, thread, runs[..n], rows, reason, origin).value;
      CancelRunsSound(s, thread, runs[..n], rows, reason, origin);
      CancelRunSound(earlier, thread, runs[n], rows, reason, origin);
      SoundTransitive(s, earlier, CancelRun(earlier, thread, runs[n], rows, reason, origin).value);
    }
  }

  lemma CancelForUpdateSound(s: Store, thread: Id, runs: seq<Id>, rows: seq<Id>, reason: string, origin: Origin)
    requires CancelForUpdate(s, thread, runs, rows, reason, origin).Ok?
    ensures Sound(s, Committed(s, CancelForUpdate(s, thread, runs, rows, reason, origin)))
  {
    hide Sound, Confined, CancelRuns, Emit, NothingPending;
    var cancelled := CancelRuns(s, thread, runs, rows, reason, origin).value;
    CancelRunsSound(s, thread, runs, rows, reason, origin);
    var calm := AttentionChanged(AttentionState.Calm);
    if CancelForUpdate(s, thread, runs, rows, reason, origin).value != cancelled {
      EmitSound(cancelled, thread, origin, calm);
      SoundTransitive(s, cancelled, Emit(cancelled, thread, origin, calm).value);
    }
  }

  lemma CreateQueuedRunSound(s: Store, t: Id, creation: ThreadEvent, binding: ThreadEvent, origin: Origin)
    requires CreateQueuedRun(s, t, creation, binding, origin).Ok? && creation.RunCreated?
    ensures Sound(s, Committed(s, CreateQueuedRun(s, t, creation, binding, origin)))
  {
    hide Sound, Confined, Emit;
    var compiler, scheduler := origin.(actor := "context-compiler"), origin.(actor := "scheduler");
    var queueing := RunStateChanged(creation.runId, RunState.Created, RunState.Queued, [], None, None);
    var a := Emit(s, t, origin, creation).value;
    var b := Emit(a, t, compiler, binding).value;
    EmitSound(s, t, origin, creation);
    EmitSound(a, t, compiler, binding);
    EmitSound(b, t, scheduler, queueing);
    SoundTransitive(s, a, b);
    SoundTransitive(s, b, Emit(b, t, scheduler, queueing).value);
  }

  lemma ScheduleNewRunSound(s: Store, sub: ThreadUpdateSubmission, branch: Id, origin: Origin)
    requires Executable(sub) && sub.maxAttempts >= 1 && origin.at == sub.at
    requires ScheduleNewRun(s, sub, branch, origin).Ok?
    ensures Sound(s, Committed(s, ScheduleNewRun(s, sub, branch, origin)))
  {
    hide Sound, InsertJob, Emit, CreateQueuedRun;
    var t, runId, scheduler := sub.threadId, sub.newRun.value, origin.(actor := "scheduler");
    var creation := RunCreated(runId, branch, sub.executorKey, sub.supersedes);
    var binding := SnapshotsBound(runId, sub.task.value, sub.agent.value, sub.context.value);
    var queued := CreateQueuedRun(s, t, creation, binding, origin).value;
    CreateQueuedRunSound(s, t, creation, binding, origin);
    var ready := QueueThread(queued, t, scheduler).value;
    if t in queued.threads && Requeued(queued.threads[t].actual) {
      EmitSound(queued, t, scheduler, ThreadStateChanged(queued.threads[t].actual, ThreadState.Queued, []));
    } else {
      SoundReflexive(queued);
    }
    var job := NewJob(runId, t, sub.priority, sub.at, sub.maxAttempts, sub.executorKey, sub.at);
    InsertJobSound(ready, job, scheduler);
    SoundTransitive(s, queued, ready);
    SoundTransitive(s, ready, InsertJob(ready, job, scheduler).value);
  }

  lemma CancelThreadSound(s: Store, t: Id, ids: seq<Id>, rows: seq<Id>, origin: Origin)
    requires CancelThread(s, t, ids, rows, origin).Ok?
    ensures Sound(s, Committed(s, CancelThread(s, t, ids, rows, origin)))
  {
    hide Sound, CancelForUpdate, Emit;
    var wanted := s;
    SoundReflexive(s);
    if !s.threads[t].desired.Cancel? {
      wanted := Emit(s, t, origin, DesiredStateChanged(DesiredState.Cancel)).value;
      EmitSound(s, t, origin, DesiredStateChanged(DesiredState.Cancel));
    }
    var cleared := CancelForUpdate(wanted, t, ids, rows, USER_CANCELLED, origin).value;
    CancelForUpdateSound(wanted, t, ids, rows, USER_CANCELLED, origin);
    SoundTransitive(s, wanted, cleared);
    if t in cleared.threads && !cleared.threads[t].actual.Cancelled? {
      var change := ThreadStateChanged(cleared.threads[t].actual, ThreadState.Cancelled, []);
      EmitSound(cleared, t, origin, change);
      SoundTransitive(s, cleared, Emit(cleared, t, origin, change).value);
    }
  }

  lemma StartNewRunSound(s: Store, sub: ThreadUpdateSubmission, origin: Origin)
    requires StartNewRun(s, sub, origin).Ok? && origin.at == sub.at
    ensures Sound(s, Committed(s, StartNewRun(s, sub, origin)))
  {
    hide Sound, Emit, ScheduleNewRun, NonBlank;
    var t, branch := sub.threadId, TargetBranch(sub, s.threads[sub.threadId].currentBranch);
    var branched := ForkForUpdate(s, sub, branch, origin).value;
    if sub.forkedFrom.None? {
      SoundReflexive(s);
    } else {
      var change :=
        BranchForked(branch, sub.forkedFrom, sub.forkedFromEvent.value, sub.baseRevision.value, sub.reason.value);
      var forked := Emit(s, t, origin, change).value;
      EmitSound(s, t, origin, change);
      EmitSound(forked, t, origin, BranchSelected(branch));
      SoundTransitive(s, forked, branched);
    }
    hide ForkForUpdate;
    ScheduleNewRunSound(branched, sub, branch, origin);
    SoundTransitive(s, branched, ScheduleNewRun(branched, sub, branch, origin).value);
  }

  lemma ApplyUpdateSound(s: Store, sub: ThreadUpdateSubmission, ids: seq<Id>, rows: seq<Id>)
    requires ApplyThreadUpdate(s, sub, ids, rows).Ok?
    ensures Sound(s, Committed(s, ApplyThreadUpdate(s, sub, ids, rows)))
  {
    hide Sound, CancelForUpdate, SupersededBy, NonBlank, Emit, StartNewRun, CancelThread;
    var t, origin := sub.threadId, UpdateOrigin(sub);
    var message := MessageAppended(
      sub.messageKey, sub.message, sub.text, sub.kind, s.threads[t].currentBranch, sub.task, sub.context, sub.newRun);
    var noted := Emit(s, t, origin, message).value;
    EmitSound(s, t, origin, message);
    if sub.kind.Cancel? {
      CancelThreadSound(noted, t, ids, rows, origin);
      SoundTransitive(s, noted, CancelThread(noted, t, ids, rows, origin).value);
    } else {
      var reason := SupersededBy(sub.kind);
      var cleared := CancelForUpdate(noted, t, sub.supersedesRuns, rows, reason, origin).value;
      CancelForUpdateSound(noted, t, sub.supersedesRuns, rows, reason, origin);
      StartNewRunSound(cleared, sub, origin);
      SoundTransitive(s, noted, cleared);
      SoundTransitive(s, cleared, StartNewRun(cleared, sub, origin).value);
    }
  }

  // ---------------------------------------------------------------- inbox

  lemma InboxLogSound(s: Store, record: InboxRecord, origin: Origin, event: InboxEvent)
    ensures Sound(s, InboxLog(s, record, origin, event))
  {
    hide Confined, Log, Sound;
    LogSound(s, InboxStream(record.messageKey), record.threadId, origin, OfInbox(event));
  }

  lemma LogAcceptanceSound(s: Store, record: InboxRecord)
    ensures Sound(s, LogAcceptance(s, record))
  {
    hide Sound, Confined, Log;
    var chat := ConversationStream(record.platform, record.chatId);
    var key, at := record.messageKey, record.createdAt;
    var sender := Origin(record.actorId, at, Some(key));
    var a := Log(s, chat, None, sender, MessageReceived(key));
    var router := Origin("inbox-router", at, Some(key));
    var b := InboxLog(a, record, router, RouteProposed(record.routeType, record.routeState));
    LogSound(s, chat, None, sender, MessageReceived(key));
    InboxLogSound(a, record, router, RouteProposed(record.routeType, record.routeState));
    SoundTransitive(s, a, b);
    var c := b;
    SoundReflexive(b);
    if record.routeState.Confirmed? {
      c := InboxLog(b, record, Origin("inbox-policy", at, Some(key)), RouteConfirmed(record.routeType));
      InboxLogSound(b, record, Origin("inbox-policy", at, Some(key)), RouteConfirmed(record.routeType));
    }
    SoundTransitive(s, b, c);
    if record.routeType.Chat? {
      LogSound(c, chat, None, sender, ConversationAppended(key));
      SoundTransitive(s, c, Log(c, chat, None, sender, ConversationAppended(key)));
    }
  }

  lemma ApplyEffectSound(
    s: Store, task: Option<TaskSubmission>, update: Option<ThreadUpdateSubmission>, ids: seq<Id>, rows: seq<Id>,
    now: Time)
    requires ApplyEffect(s, task, update, ids, rows, now).Ok?
    ensures Sound(s, Committed(s, ApplyEffect(s, task, update, ids, rows, now)))
  {
    hide Sound, SubmitTask, ApplyThreadUpdate;
    var submitted := s;
    SoundReflexive(s);
    if task.Some? {
      submitted := SubmitTask(s, task.value, now).value;
      SubmitSound(s, task.value, now);
    }
    if update.Some? {
      ApplyUpdateSound(submitted, update.value, ids, rows);
      SoundTransitive(s, submitted, ApplyThreadUpdate(submitted, update.value, ids, rows).value);
    }
  }

  lemma AcceptRouteSound(
    s: Store, record: InboxRecord, task: Option<TaskSubmission>, update: Option<ThreadUpdateSubmission>,
    ids: seq<Id>, rows: seq<Id>, now: Time)
    requires AcceptInboxRoute(s, record, task, update, ids, rows, now).Ok?
    ensures Sound(s, Committed(s, AcceptInboxRoute(s, record, task, update, ids, rows, now)))
  {
    hide Sound, Confined, LogAcceptance, ApplyEffect, ValidAcceptance, SameInbound;
    if record.messageKey in s.inbox {
      SoundReflexive(s);
    } else {
      var logged := LogAcceptance(s, record);
      var stored := logged.(inbox := s.inbox[record.messageKey := record]);
      LogAcceptanceSound(s, record);
      AsideSound(logged, stored);
      ApplyEffectSound(stored, task, update, ids, rows, now);
      SoundTransitive(s, logged, stored);
      SoundTransitive(s, stored, ApplyEffect(stored, task, update, ids, rows, now).value);
    }
  }

  lemma ResolveInboxRouteSound(
    s: Store, record: InboxRecord, resolver: string, reason: string, task: Option<TaskSubmission>,
    update: Option<ThreadUpdateSubmission>, ids: seq<Id>, rows: seq<Id>)
    requires ResolveInboxRoute(s, record, resolver, reason, task, update, ids, rows).Ok?
    ensures Sound(s, Committed(s, ResolveInboxRoute(s, record, resolver, reason, task, update, ids, rows)))
  {
    hide Sound, Confined, ApplyEffect, ValidResolution, SameInbound, SameResolution, Resolved;
    var key := record.messageKey;
    var stored := s.inbox[key];
    if !stored.routeState.Proposed? {
      SoundReflexive(s);
    } else {
      var origin := Origin(resolver, record.updatedAt, Some(key));
      var logged := InboxLog(s, record, origin, RouteResolved(record.routeType, record.routeState));
      var settled := logged.(inbox := s.inbox[key := Resolved(stored, record, resolver, reason)]);
      InboxLogSound(s, record, origin, RouteResolved(record.routeType, record.routeState));
      AsideSound(logged, settled);
      ApplyEffectSound(settled, task, update, ids, rows, record.updatedAt);
      SoundTransitive(s, logged, settled);
      SoundTransitive(s, settled, ApplyEffect(settled, task, update, ids, rows, record.updatedAt).value);
    }
  }

  lemma AcceptSound(
    s: Store, message: InboxMessage, route: InboxRoute, project: string, agent: Artifact,
    seen: Option<ThreadProjection>, ids: seq<Id>, rows: seq<Id>, now: Time)
    requires Accept(s, message, route, project, agent, seen, ids, rows, now).Ok?
    ensures Sound(s, Committed(s, Accept(s, message, route, project, agent, seen, ids, rows, now)))
  {
    hide Sound, AcceptInboxRoute, PrepareTask, PrepareUpdate, SameInbound;
    var record := NewRecord(message, route, project);
    if record.messageKey in s.inbox {
      SoundReflexive(s);
    } else if route.routeType.NewTask? {
      var task := PrepareTask(record, OrElse(route.taskText, Strip(message.text)), agent).value;
      AcceptRouteSound(s, record, Some(task), None, ids, rows, now);
    } else if route.routeType.ThreadUpdate? && record.routeState.Confirmed? {
      var kind := if route.updateKind.Some? then route.updateKind.value else UpdateKind.Supplement;
      var update := PrepareUpdate(seen, ids, record, route.taskText, kind, agent, message.createdAt).value;
      AcceptRouteSound(s, record, None, Some(update), ids, rows, now);
    } else {
      AcceptRouteSound(s, record, None, None, ids, rows, now);
    }
  }

  lemma ResolveRouteSound(
    s: Store, stored: InboxRecord, platform: string, actor: string, decision: Decision, target: Option<Id>,
    kind: Option<UpdateKind>, reason: string, agent: Artifact, seen: Option<ThreadProjection>, ids: seq<Id>,
    rows: seq<Id>, now: Time)
    requires ResolveRoute(s, stored, platform, actor, decision, target, kind, reason, agent, seen, ids, rows, now).Ok?
    ensures Sound(
      s, Committed(s, ResolveRoute(
        s, stored, platform, actor, decision, target, kind, reason, agent, seen, ids, rows, now)))
  {
    hide Sound, ResolveInboxRoute, PrepareTask, PrepareUpdate, SameDecision;
    var resolver := platform + ":" + actor;
    var open := stored.(
      requiresConfirmation := false, updatedAt := now, resolvedBy := Some(resolver), resolutionReason := Some(reason));
    if !stored.routeState.Proposed? {
      SoundReflexive(s);
    } else {
      match decision
      case Expire =>
        ResolveInboxRouteSound(s, open.(routeState := RouteState.Expired), resolver, reason, None, None, ids, rows);
      case AsNewTask =>
        var record := open.(
          routeType := RouteType.NewTask, routeState := RouteState.Corrected,
          threadId := Some(ThreadOf(stored.messageKey)), updateKind := None);
        var task := PrepareTask(record, TextOf(stored.text), agent).value;
        ResolveInboxRouteSound(s, record, resolver, reason, Some(task), None, ids, rows);
      case ToThread =>
        var chosen := KindOf(kind, stored.updateKind);
        var record := open.(
          routeType := RouteType.ThreadUpdate, routeState := RouteState.Corrected, threadId := target,
          updateKind := Some(chosen));
        var update := PrepareUpdate(seen, ids, record, TextOf(stored.text), chosen, agent, now).value;
        ResolveInboxRouteSound(s, record, resolver, reason, None, Some(update), ids, rows);
    }
  }

  // =========================================================================== sweeps
  // The transactions that work off a query's rows leave nothing behind when the query answered in full.

  // ---------------------------------------------------------------- waiting actions of a Run

  /** Intent rows stand under their own ids. */
  ghost predicate IntentsKeyed(s: Store) {
    forall i :: i in s.intents ==> Row(s.intents, i).intentId == i
  }

  lemma CancelIntentFacts(s: Store, x: Id, reason: string, origin: Origin, i: Id)
    requires x in s.intents && Row(s.intents, x).intentId == x
    ensures var t := CancelIntent(s, x, reason, origin);
      && t.intents.Keys == s.intents.Keys
      && (i in s.intents && i != x ==> Row(t.intents, i) == Row(s.intents, i))
      && Row(t.intents, x) == Row(s.intents, x).(
           status := ActionStatus.Cancelled, lastError := Some(reason), updatedAt := origin.at)
  {
    hide Insert, OwnerThread;
  }

  /** What `_cancel_pending_run_actions` does to one intent. */
  lemma {:induction false} CancelHandles(s: Store, runId: Id, rows: seq<Id>, reason: string, origin: Origin, i: Id)
    requires IntentsKeyed(s) && i in s.intents
    ensures var t := CancelPendingActions(s, runId, rows, reason, origin);
      && IntentsKeyed(t) && i in t.intents
      && Row(t.intents, i) ==
         if WaitingFor(s, i, runId) && i in rows then
           Row(s.intents, i).(status := ActionStatus.Cancelled, lastError := Some(reason), updatedAt := origin.at)
         else Row(s.intents, i)
    decreases |rows|
  {
    hide CancelIntent, IntentsKeyed;
    if rows != [] {
      var n := |rows| - 1;
      CancelHandles(s, runId, rows[..n], reason, origin, i);
      var rest := CancelPendingActions(s, runId, rows[..n], reason, origin);
      assert i in rows <==> i in rows[..n] || i == rows[n];
      if WaitingFor(rest, rows[n], runId) {
        KeyedAt(rest, rows[n]);
        CancelIntentFacts(rest, rows[n], reason, origin, i);
        CancelKeepsKeys(rest, rows[n], reason, origin);
      }
    }
  }

  lemma KeyedAt(s: Store, i: Id)
    requires IntentsKeyed(s) && i in s.intents
    ensures Row(s.intents, i).intentId == i
  {
  }

  lemma CancelKeepsKeys(s: Store, x: Id, reason: string, origin: Origin)
    requires IntentsKeyed(s) && x in s.intents
    ensures IntentsKeyed(CancelIntent(s, x, reason, origin))
  {
    forall i | i in CancelIntent(s, x, reason, origin).intents
      ensures CancelIntent(s, x, reason, origin).intents[i].intentId == i
    {
    }
  }

  ghost predicate ApprovalsKeyed(s: Store) {
    forall a :: a in s.approvals ==> Row(s.approvals, a).approvalId == a
  }

  /** The approval is as it was, or it was pending and is cancelled. */
  ghost predicate KeptOrWithdrawn(s: Store, t: Store, a: Id) {
    a in s.approvals ==>
      && a in t.approvals
      && (Row(t.approvals, a) == Row(s.approvals, a)
          || (Row(s.approvals, a).status.Pending? && Row(t.approvals, a).status.Cancelled?))
  }

  /** The intent has an approval that waits for a decision. */
  ghost predicate Asked(s: Store, i: Id) {
    i in s.approvalOf && Row(s.approvalOf, i) in s.approvals && Row(s.approvals, Row(s.approvalOf, i)).status.Pending?
  }

  ghost predicate Withdrawn(s: Store, i: Id) {
    i in s.approvalOf && Row(s.approvalOf, i) in s.approvals && Row(s.approvals, Row(s.approvalOf, i)).status.Cancelled?
  }

  lemma CancelWithdraws(s: Store, x: Id, reason: string, origin: Origin)
    requires ApprovalsKeyed(s) && x in s.intents
    ensures var t := CancelIntent(s, x, reason, origin);
      && ApprovalsKeyed(t) && t.approvalOf == s.approvalOf
      && (forall a :: KeptOrWithdrawn(s, t, a))
      && (Asked(s, x) ==> Withdrawn(t, x))
  {
    hide Insert, OwnerThread;
  }

  lemma {:induction false} RunWithdraws(s: Store, runId: Id, rows: seq<Id>, reason: string, origin: Origin, i: Id)
    requires ApprovalsKeyed(s) && IntentsKeyed(s)
    ensures var t := CancelPendingActions(s, runId, rows, reason, origin);
      && ApprovalsKeyed(t) && t.approvalOf == s.approvalOf
      && (forall a :: KeptOrWithdrawn(s, t, a))
      && (WaitingFor(s, i, runId) && i in rows && Asked(s, i) ==> Withdrawn(t, i))
    decreases |rows|
  {
    hide CancelIntent, IntentsKeyed, ApprovalsKeyed;
    if rows != [] {
      var n := |rows| - 1;
      RunWithdraws(s, runId, rows[..n], reason, origin, i);
      var rest := CancelPendingActions(s, runId, rows[..n], reason, origin);
      assert i in rows <==> i in rows[..n] || i == rows[n];
      if i in s.intents {
        CancelHandles(s, runId, rows[..n], reason, origin, i);
      }
      if WaitingFor(rest, rows[n], runId) {
        CancelWithdraws(rest, rows[n], reason, origin);
        var t := CancelIntent(rest, rows[n], reason, origin);
        forall a
          ensures KeptOrWithdrawn(s, t, a)
        {
          assert KeptOrWithdrawn(s, rest, a) && KeptOrWithdrawn(rest, t, a);
        }
        if i in s.approvalOf {
          assert KeptOrWithdrawn(s, rest, s.approvalOf[i]) && KeptOrWithdrawn(rest, t, s.approvalOf[i]);
        }
      }
    }
  }

  /** From s to t every waiting intent of the Run was cancelled and its pending approval with it, and no
      other intent changed. */
  ghost predicate RunDropped(s: Store, t: Store, runId: Id) {
    && (forall i :: WaitingFor(s, i, runId) && Asked(s, i) ==> Withdrawn(t, i))
    && (forall i :: i in s.intents ==>
          && i in t.intents
          && if WaitingFor(s, i, runId) then Row(t.intents, i).status.Cancelled?
             else Row(t.intents, i) == Row(s.intents, i))
    && (forall i :: !WaitingFor(t, i, runId))
  }

  /** `_cancel_pending_run_actions`, given every waiting intent of the Run, leaves none waiting. */
  lemma CancelIsComplete(s: Store, runId: Id, rows: seq<Id>, reason: string, origin: Origin)
    requires IntentsKeyed(s) && ApprovalsKeyed(s) && forall i :: WaitingFor(s, i, runId) ==> i in rows
    ensures RunDropped(s, CancelPendingActions(s, runId, rows, reason, origin), runId)
  {
    hide CancelPendingActions, IntentsKeyed, ApprovalsKeyed, Asked, Withdrawn, KeptOrWithdrawn;
    var t := CancelPendingActions(s, runId, rows, reason, origin);
    forall i | i in s.intents
      ensures i in t.intents
      ensures if WaitingFor(s, i, runId) then t.intents[i].status.Cancelled? else t.intents[i] == s.intents[i]
    {
      CancelHandles(s, runId, rows, reason, origin, i);
    }
    forall i | WaitingFor(s, i, runId) && Asked(s, i)
      ensures Withdrawn(t, i)
    {
      RunWithdraws(s, runId, rows, reason, origin, i);
    }
    CancelAddsNone(s, runId, rows, reason, origin);
  }

  lemma {:induction false} CancelAddsNone(s: Store, runId: Id, rows: seq<Id>, reason: string, origin: Origin)
    requires IntentsKeyed(s)
    ensures CancelPendingActions(s, runId, rows, reason, origin).intents.Keys == s.intents.Keys
    ensures IntentsKeyed(CancelPendingActions(s, runId, rows, reason, origin))
    decreases |rows|
  {
    hide CancelIntent;
    if rows != [] {
      var n := |rows| - 1;
      CancelAddsNone(s, runId, rows[..n], reason, origin);
      var rest := CancelPendingActions(s, runId, rows[..n], reason, origin);
      if WaitingFor(rest, rows[n], runId) {
        assert rest.intents[rows[n]].intentId == rows[n];
        CancelIntentFacts(rest, rows[n], reason, origin, rows[n]);
        CancelKeepsKeys(rest, rows[n], reason, origin);
      }
    }
  }

  // ---------------------------------------------------------------- all Runs an update replaces

  /** The Run has not ended. */
  ghost predicate Open(s: Store, thread: Id, r: Id) {
    thread in s.threads && r in ThreadAt(s, thread).runs && !Terminal(RunAt(ThreadAt(s, thread), r).state)
  }

  /** No intent came to wait for a Run, and the rows stand under their own ids. */
  ghost predicate NoneAdded(s: Store, t: Store) {
    && IntentsKeyed(t) && ApprovalsKeyed(t)
    && forall i, r :: WaitingFor(t, i, r) ==> WaitingFor(s, i, r)
  }

  lemma CancelRunFacts(s: Store, thread: Id, x: Id, rows: seq<Id>, reason: string, origin: Origin)
    requires IntentsKeyed(s) && ApprovalsKeyed(s) && forall i :: WaitingFor(s, i, x) ==> i in rows
    ensures var r := CancelRun(s, thread, x, rows, reason, origin);
      var u := Committed(s, r);
      r.Ok? ==>
        && NoneAdded(s, u)
        && (Open(s, thread, x) ==> forall i :: !WaitingFor(u, i, x))
        && forall other :: other != x && Open(s, thread, other) ==> Open(u, thread, other)
  {
    hide CancelPendingActions, Emit, Asked, Withdrawn, Insert;
    if Open(s, thread, x) {
      var dropped := CancelPendingActions(s, x, rows, reason, origin);
      CancelIsComplete(s, x, rows, reason, origin);
      CancelAddsNone(s, x, rows, reason, origin);
      RunWithdraws(s, x, rows, reason, origin, x);
      assert NoneAdded(s, dropped) && forall i :: !WaitingFor(dropped, i, x);
      CancelKeepsThreads(s, x, rows, reason, origin);
      var change := RunStateChanged(x, s.threads[thread].runs[x].state, RunState.Cancelled, [], None, None);
      EndFacts(dropped, thread, x, s.threads[thread].runs[x].state, origin);
      var ended := Committed(dropped, Emit(dropped, thread, origin, change));
      var u := CancelJob(ended, x, origin);
      forall i, r | WaitingFor(u, i, r)
        ensures WaitingFor(s, i, r) && r != x
      {
        assert WaitingFor(dropped, i, r);
      }
      forall other | other != x && Open(s, thread, other)
        ensures Emit(dropped, thread, origin, change).Ok? ==> Open(u, thread, other)
      {
        assert Open(dropped, thread, other);
      }
    }
  }

  lemma {:induction false} CancelKeepsThreads(s: Store, runId: Id, rows: seq<Id>, reason: string, origin: Origin)
    ensures CancelPendingActions(s, runId, rows, reason, origin).threads == s.threads
    decreases |rows|
  {
    hide Insert, OwnerThread;
    if rows != [] {
      CancelKeepsThreads(s, runId, rows[..|rows| - 1], reason, origin);
    }
  }

  lemma EndFacts(s: Store, thread: Id, x: Id, from: RunState, origin: Origin)
    ensures var r := Emit(s, thread, origin, RunStateChanged(x, from, RunState.Cancelled, [], None, None));
      var u := Committed(s, r);
      r.Ok? ==>
        && u.intents == s.intents && u.approvals == s.approvals
        && forall other :: other != x && Open(s, thread, other) ==> Open(u, thread, other)
  {
    hide Insert, AppendMessage, ForkBranch, SelectBranch, RejectBranch, CreateRun, BindSnapshots, RecordCheckpoint,
      ThreadTransitions, RunTransitions;
    var change := RunStateChanged(x, from, RunState.Cancelled, [], None, None);
    assert Envelope(s.journal, ThreadDraft(thread, origin, change)).body == ThreadDraft(thread, origin, change).body;
  }

  /** `_cancel_runs_for_update`, given every intent that waits for one of the Runs, leaves none waiting for
      a Run it found open. */
  lemma {:induction false} RunsDropTheirActions(
    s: Store, thread: Id, runs: seq<Id>, rows: seq<Id>, reason: string, origin: Origin, x: Id)
    requires IntentsKeyed(s) && ApprovalsKeyed(s)
    requires forall i, r :: r in runs && WaitingFor(s, i, r) ==> i in rows
    ensures var r := CancelRuns(s, thread, runs, rows, reason, origin);
      var u := Committed(s, r);
      r.Ok? ==>
        && NoneAdded(s, u)
        && (x in runs && Open(s, thread, x) ==> forall i :: !WaitingFor(u, i, x))
        && (x !in runs && Open(s, thread, x) ==> Open(u, thread, x))
    decreases |runs|
  {
    hide CancelRun, IntentsKeyed, ApprovalsKeyed, WaitingFor, Open;
    if runs == [] {
    } else {
      var n := |runs| - 1;
      assert forall y :: y in runs <==> y in runs[..n] || y == runs[n];
      RunsDropTheirActions(s, thread, runs[..n], rows, reason, origin, x);
      RunsDropTheirActions(s, thread, runs[..n], rows, reason, origin, runs[n]);
      var rest := CancelRuns(s, thread, runs[..n], rows, reason, origin);
      if rest.Ok? {
        CancelRunFacts(rest.value, thread, runs[n], rows, reason, origin);
      }
    }
  }

  /** The same for the whole of an update's cancelling. */
  lemma UpdateDropsActions(
    s: Store, thread: Id, runs: seq<Id>, rows: seq<Id>, reason: string, origin: Origin, x: Id)
    requires IntentsKeyed(s) && ApprovalsKeyed(s) && x in runs && Open(s, thread, x)
    requires forall i, r :: r in runs && WaitingFor(s, i, r) ==> i in rows
    ensures var r := CancelForUpdate(s, thread, runs, rows, reason, origin);
      var u := Committed(s, r);
      r.Ok? ==> forall i :: !WaitingFor(u, i, x)
  {
    hide CancelRuns, NothingPending, IntentsKeyed, ApprovalsKeyed, NoneAdded, Envelope, Reduce;
    RunsDropTheirActions(s, thread, runs, rows, reason, origin, x);
    var cancelled := CancelRuns(s, thread, runs, rows, reason, origin);
    if cancelled.Ok? {
      forall i
        ensures SettleAttention(cancelled.value, thread, origin).Ok? ==>
          !WaitingFor(SettleAttention(cancelled.value, thread, origin).value, i, x)
      {
        assert !WaitingFor(cancelled.value, i, x);
      }
    }
  }

  // ---------------------------------------------------------------- approvals that are due

  /** From s to t exactly what was due expired. */
  ghost predicate DueExpired(s: Store, t: Store, now: Time) {
    && t.approvals.Keys == s.approvals.Keys
    && forall a :: a in s.approvals ==>
         Row(t.approvals, a) ==
           if Due(s, a, now) then Row(s.approvals, a).(status := ApprovalState.Expired, updatedAt := now)
           else Row(s.approvals, a)
  }

  lemma {:induction false} ExpireHandles(s: Store, now: Time, rows: seq<Id>)
    requires ApprovalsKeyed(s)
    ensures var t := ExpireRows(s, now, rows);
      && ApprovalsKeyed(t) && t.approvals.Keys == s.approvals.Keys
      && forall a :: a in s.approvals ==>
           Row(t.approvals, a) ==
             if Due(s, a, now) && a in rows then
               Row(s.approvals, a).(status := ApprovalState.Expired, updatedAt := now)
             else Row(s.approvals, a)
    decreases |rows|
  {
    hide Log;
    if rows != [] {
      var n := |rows| - 1;
      ExpireHandles(s, now, rows[..n]);
      var rest := ExpireRows(s, now, rows[..n]);
      assert forall a :: a in rows <==> a in rows[..n] || a == rows[n];
    }
  }

  /** `expire_pending_approvals`, given every approval that is due, expires exactly those. */
  lemma ExpiryIsComplete(s: Store, now: Time, rows: seq<Id>, threads: seq<Id>)
    requires ApprovalsKeyed(s) && forall a :: Due(s, a, now) ==> a in rows
    ensures var r := ExpirePendingApprovals(s, now, rows, threads);
      r.Ok? ==> DueExpired(s, Committed(s, r), now) && Calmed(Committed(s, r), threads)
  {
    hide ExpireRows, ClearAll, ApprovalsKeyed, NothingPending;
    ExpireHandles(s, now, rows);
    ClearAllFacts(ExpireRows(s, now, rows), now, threads);
  }

  /** A decision on an approval that is due comes too late, once everything due has expired. */
  lemma LateDecisionRefused(
    s: Store, rows: seq<Id>, threads: seq<Id>, due: Time, a: Id, decision: ApprovalState, actor: string,
    evidence: Option<Artifact>, now: Time)
    requires ApprovalsKeyed(s) && forall x :: Due(s, x, due) ==> x in rows
    requires Due(s, a, due) && ExpirePendingApprovals(s, due, rows, threads).Ok?
    ensures DecideApproval(
      Committed(s, ExpirePendingApprovals(s, due, rows, threads)), a, decision, actor, evidence, now)
      == Err(if decision.Approved? || decision.Denied? then InvalidTransition else ValueError)
  {
    hide ExpirePendingApprovals, RecordDecision, ClearAttention, Calmed, ApprovalsKeyed;
    ExpiryIsComplete(s, due, rows, threads);
  }

  /** No listed Thread without a pending approval asks for one. */
  ghost predicate Calmed(s: Store, threads: seq<Id>) {
    forall t :: t in threads && t in s.threads && NothingPending(s, t) ==> !ThreadAt(s, t).attention.NeedsApproval?
  }

  lemma {:induction false} ClearAllFacts(s: Store, now: Time, threads: seq<Id>)
    ensures var r := ClearAll(s, now, threads);
      var u := Committed(s, r);
      r.Ok? ==>
        && u == s.(journal := u.journal, threads := u.threads)
        && Calmed(u, threads)
    decreases |threads|
  {
    hide SetAttention;
    if threads != [] {
      var n := |threads| - 1;
      ClearAllFacts(s, now, threads[..n]);
      assert forall t :: t in threads <==> t in threads[..n] || t == threads[n];
      var earlier := ClearAll(s, now, threads[..n]);
      if earlier.Ok? {
        ClearFacts(earlier.value, threads[n], now);
      }
    }
  }

  /** Setting a Thread's attention touches that and the journal. */
  lemma AttentionFacts(s: Store, thread: Id, target: AttentionState, origin: Origin)
    ensures var r := SetAttention(s, thread, target, origin);
      var u := Committed(s, r);
      r.Ok? ==>
        && thread in s.threads && thread in u.threads && ThreadAt(u, thread).attention == target
        && u == s.(journal := u.journal, threads := s.threads[thread := ThreadAt(u, thread)])
  {
    hide Insert, AppendMessage, ForkBranch, SelectBranch, RejectBranch, CreateRun, ChangeRunState, BindSnapshots,
      RecordCheckpoint, ThreadTransitions, LastSequence;
    var draft := ThreadDraft(thread, origin, AttentionChanged(target));
    assert Envelope(s.journal, draft).body == draft.body;
  }

  lemma ClearFacts(s: Store, thread: Id, now: Time)
    ensures var r := ClearAttention(s, thread, now);
      var u := Committed(s, r);
      r.Ok? ==>
        && u == s.(journal := u.journal, threads := u.threads) && u.threads.Keys == s.threads.Keys
        && (forall t :: t in s.threads && t != thread ==> ThreadAt(u, t) == ThreadAt(s, t))
        && (NothingPending(s, thread) ==> thread in s.threads && ThreadAt(u, thread).attention.Calm?)
  {
    hide NothingPending, SetAttention;
    AttentionFacts(s, thread, AttentionState.Calm, Origin("approval-gate", now, None));
  }

  // ---------------------------------------------------------------- lapsed actions

  ghost predicate Lapsed(s: Store, i: Id, now: Time) {
    i in s.intents && ActionLapsed(Row(s.intents, i), now)
  }

  /** From s to t every lapsed action was sent to reconciliation, and no other changed. */
  ghost predicate LapsesMarked(s: Store, t: Store, now: Time) {
    && t.intents.Keys == s.intents.Keys
    && forall i :: i in s.intents ==>
         if Lapsed(s, i, now) then Row(t.intents, i).status.ReconcileRequired?
         else Row(t.intents, i) == Row(s.intents, i)
  }

  lemma {:induction false} RecoverHandles(s: Store, now: Time, rows: seq<Id>)
    requires IntentsKeyed(s)
    ensures var t := RecoverIncomplete(s, now, rows);
      && IntentsKeyed(t) && t.intents.Keys == s.intents.Keys
      && forall i :: i in s.intents ==>
           if Lapsed(s, i, now) && i in rows then Row(t.intents, i).status.ReconcileRequired?
           else Row(t.intents, i) == Row(s.intents, i)
    decreases |rows|
  {
    if rows != [] {
      var n := |rows| - 1;
      RecoverHandles(s, now, rows[..n]);
      var rest := RecoverIncomplete(s, now, rows[..n]);
      assert forall i :: i in rows <==> i in rows[..n] || i == rows[n];
    }
  }

  /** `recover_incomplete_actions`, given every lapsed action, marks exactly those. */
  lemma RecoveryIsComplete(s: Store, now: Time, rows: seq<Id>)
    requires IntentsKeyed(s) && forall i :: Lapsed(s, i, now) ==> i in rows
    ensures LapsesMarked(s, RecoverIncomplete(s, now, rows), now)
  {
    hide RecoverIncomplete, IntentsKeyed;
    RecoverHandles(s, now, rows);
  }

  // ---------------------------------------------------------------- overdue leases

  ghost predicate LeasesKeyed(s: Store) {
    forall l :: l in s.leases ==> Row(s.leases, l).leaseId == l
  }

  /** From s to t exactly the overdue leases of the key expired. */
  ghost predicate OverdueExpired(s: Store, t: Store, key: string, now: Time) {
    && t.leases.Keys == s.leases.Keys
    && forall l :: l in s.leases ==>
         Row(t.leases, l) == if Overdue(Row(s.leases, l), key,
           now) then Row(s.leases, l).(status := LeaseStatus.Expired) else Row(s.leases, l)
  }

  lemma {:induction false} LeaseHandles(s: Store, key: string, now: Time, rows: seq<string>)
    requires LeasesKeyed(s)
    ensures var t := ExpireLeases(s, key, now, rows);
      && LeasesKeyed(t) && t.leases.Keys == s.leases.Keys
      && forall l :: l in s.leases ==>
           Row(t.leases, l) ==
             if Overdue(Row(s.leases, l), key, now) && l in rows then Row(s.leases, l).(status := LeaseStatus.Expired)
             else Row(s.leases, l)
    decreases |rows|
  {
    hide Insert;
    if rows != [] {
      var n := |rows| - 1;
      LeaseHandles(s, key, now, rows[..n]);
      assert forall l :: l in rows <==> l in rows[..n] || l == rows[n];
    }
  }

  /** `_expire_resource_leases`, given every overdue lease of the key, expires exactly those. */
  lemma LeaseSweepIsComplete(s: Store, key: string, now: Time, rows: seq<string>)
    requires LeasesKeyed(s) && forall l :: l in s.leases && Overdue(Row(s.leases, l), key, now) ==> l in rows
    ensures OverdueExpired(s, ExpireLeases(s, key, now, rows), key, now)
  {
    hide ExpireLeases;
    LeaseHandles(s, key, now, rows);
  }
}
