/** The append-only event journal: one global sequence of events, each numbered within its stream. */
module Journal {
  import opened Prelude
  import opened Vocabulary

  datatype Stream =
    | ThreadStream(thread: Id)
    | JobStream(run: Id)
    | StepStream(step: Id)
    | DeliveryStream(delivery: Id)
    | ActionStream(intent: Id)
    | ApprovalStream(approval: Id)
    | InboxStream(message: Id)
    | ConversationStream(platform: string, chat: string)
    | ResourceStream(resource: string)

  datatype ThreadEvent =
    | ThreadCreated(projectId: string, title: string, desired: DesiredState, branchId: Id)
    | ThreadStateChanged(source: ThreadState, target: ThreadState, waitingOn: seq<string>)
    | DesiredStateChanged(desired: DesiredState)
    | AttentionChanged(attention: AttentionState)
    | MessageAppended(
        updateId: Id, message: Artifact, text: Artifact, kind: UpdateKind, branchId: Id,
        task: Option<Artifact>, context: Option<Artifact>, newRun: Option<Id>)
    | BranchForked(
        branchId: Id, forkedFrom: Option<Id>, forkedFromEvent: EventId, baseRevision: nat, reason: string)
    | BranchSelected(branchId: Id)
    | BranchRejected(branchId: Id)
    | RunCreated(runId: Id, branchId: Id, executorKey: string, supersedes: Option<Id>)
    | RunStateChanged(
        runId: Id, from: RunState, to: RunState, waitingOn: seq<string>,
        output: Option<Option<Artifact>>, error: Option<string>)
    | SnapshotsBound(runId: Id, taskSnapshot: Artifact, agentSnapshot: Artifact, contextManifest: Artifact)
    | CheckpointRecorded(runId: Id, checkpoint: Artifact, checkpointSequence: nat)
    | DeliveryRecorded(delivery: Id)
    | Unsupported(eventType: string)

  datatype JobEvent =
    | RunEnqueued(priority: int, availableAt: Time, maxAttempts: nat, executorKey: string)
    | RunClaimed(leaseId: string, token: nat, expiresAt: Time, attempt: nat, reclaimed: bool)
    | RunHeartbeat(leaseId: string, token: nat, expiresAt: Time)
    | RunCompleted(token: nat, errorText: Option<string>)
    | RunRetryScheduled(token: nat, availableAt: Time, errorText: Option<string>)
    | RunFailed(token: nat, errorText: Option<string>)
    | RunCancelled(source: JobState, token: nat)

  datatype ActionEvent =
    | IntentCreated(requiresApproval: bool)
    | ExecutionClaimed(leaseId: string, token: nat, expiresAt: Time)
    | ReconciliationClaimed(leaseId: string, token: nat, expiresAt: Time)
    | ReconciliationRequired(previous: ActionStatus, token: nat)
    | ReceiptRecorded(receipt: Id, outcome: ReceiptOutcome, next: ActionStatus, token: nat)
    | IntentCancelled(reason: string)

  datatype ApprovalEvent =
    | ApprovalRequested(intent: Id)
    | ApprovalDecided(intent: Id, decision: ApprovalState)
    | ApprovalExpired(intent: Id)
    | ApprovalCancelled(intent: Id)

  datatype InboxEvent =
    | RouteProposed(route: RouteType, state: RouteState)
    | RouteConfirmed(route: RouteType)
    | RouteResolved(route: RouteType, state: RouteState)

  datatype ResourceEvent =
    | LeaseAcquired(leaseId: string, mode: AccessMode, token: nat, expiresAt: Time)
    | LeaseRenewed(leaseId: string, token: nat, expiresAt: Time)
    | LeaseReleased(leaseId: string, token: nat)
    | LeaseExpired(leaseId: string, token: nat)

  datatype Body =
    | OfThread(thread: ThreadEvent)
    | OfJob(job: JobEvent)
    | OfAction(action: ActionEvent)
    | OfApproval(approval: ApprovalEvent)
    | OfInbox(inbox: InboxEvent)
    | OfResource(resource: ResourceEvent)
    | MessageReceived(key: Id)
    | ConversationAppended(key: Id)
    | StepCreated | StepStarted | StepOutputs | StepEnded(succeeded: bool)
    | DeliveryPrepared(version: nat) | DeliveryNotified(outbox: Id) | DeliveryShown

  /** What a caller supplies; the journal adds the position and the sequence number. */
  datatype Draft = Draft(
    stream: Stream,
    thread: Option<Id>,
    actor: string,
    at: Time,
    correlation: Option<Id>,
    given: Option<string>,
    body: Body)

  datatype Event = Event(
    position: nat,
    sequence: nat,
    eventId: EventId,
    stream: Stream,
    thread: Option<Id>,
    actor: string,
    at: Time,
    correlation: Option<Id>,
    body: Body)

  /** `SELECT COALESCE(MAX(sequence), 0)` over one stream. */
  function LastSequence(journal: seq<Event>, stream: Stream): nat {
    if journal == [] then 0
    else
      var earlier := LastSequence(journal[..|journal| - 1], stream);
      var last := journal[|journal| - 1];
      if last.stream == stream && last.sequence > earlier then last.sequence else earlier
  }

  function Envelope(journal: seq<Event>, draft: Draft): Event {
    Event(
      |journal|,
      LastSequence(journal, draft.stream) + 1,
      if draft.given.Some? then Given(draft.given.value) else Generated(|journal|),
      draft.stream, draft.thread, draft.actor, draft.at, draft.correlation, draft.body)
  }

  function Insert(journal: seq<Event>, draft: Draft): seq<Event> {
    journal + [Envelope(journal, draft)]
  }

  function Count(journal: seq<Event>, stream: Stream): nat {
    if journal == [] then 0
    else
      Count(journal[..|journal| - 1], stream) + if journal[|journal| - 1].stream == stream then 1 else 0
  }

  /** Every event's sequence is one more than the number of earlier events of its stream. */
  ghost predicate Sequenced(journal: seq<Event>) {
    forall i :: 0 <= i < |journal| ==>
      journal[i].position == i && journal[i].sequence == Count(journal[..i], journal[i].stream) + 1
  }

  lemma SequencedPrefix(journal: seq<Event>, n: nat)
    requires Sequenced(journal) && n <= |journal|
    ensures Sequenced(journal[..n])
  {
    forall i | 0 <= i < n
      ensures journal[..n][i].sequence == Count(journal[..n][..i], journal[..n][i].stream) + 1
    {
      assert journal[..n][..i] == journal[..i];
    }
  }

  /** The largest sequence of a stream is the number of its events: no number is skipped or reused. */
  lemma {:induction false} LastSequenceIsCount(journal: seq<Event>, stream: Stream)
    requires Sequenced(journal)
    ensures LastSequence(journal, stream) == Count(journal, stream)
    decreases |journal|
  {
    if journal != [] {
      var n := |journal| - 1;
      SequencedPrefix(journal, n);
      LastSequenceIsCount(journal[..n], stream);
    }
  }

  lemma {:induction false} CountMonotone(before: seq<Event>, after: seq<Event>, stream: Stream)
    requires before <= after
    ensures Count(before, stream) <= Count(after, stream)
    decreases |after|
  {
    if |before| < |after| {
      var n := |after| - 1;
      assert before <= after[..n];
      CountMonotone(before, after[..n], stream);
    } else {
      assert before == after;
    }
  }
}
