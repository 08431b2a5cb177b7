/** The durable store: one journal and the tables written with it. A transaction is a function
    from a store to a result; Err means the transaction rolled back and the store is as it was. */
module Store {
  import opened Prelude
  import opened Vocabulary
  import opened Journal
  import opened Reducer

  /** `clock` is the latest time a committed transaction has read; `intentByKey` and `approvalOf`
      are the UNIQUE indexes on idempotency_key and on the approval's intent_id. */
  datatype Store = Store(
    clock: Time,
    journal: seq<Event>,
    threads: map<Id, ThreadProjection>,
    jobs: map<Id, SchedulerJob>,
    steps: map<Id, StepRecord>,
    deliveries: seq<DeliveryRecord>,
    outbox: seq<OutboxItem>,
    inbox: map<Id, InboxRecord>,
    intents: map<Id, ActionIntent>,
    intentByKey: map<string, Id>,
    approvals: map<Id, ApprovalRequest>,
    approvalOf: map<Id, Id>,
    receipts: seq<ActionReceipt>,
    fences: map<string, nat>,
    leases: map<string, ResourceLease>)

  function EmptyStore(start: Time): Store {
    Store(start, [], map[], map[], map[], [], [], map[], map[], map[], map[], map[], [], map[], map[])
  }

  /** The row of a Thread, and that of a job; any row when there is none. */
  ghost function ThreadAt(s: Store, t: Id): ThreadProjection {
    if t in s.threads then s.threads[t] else var p: ThreadProjection :| true; p
  }

  ghost function JobAt(s: Store, r: Id): SchedulerJob {
    if r in s.jobs then s.jobs[r] else var job: SchedulerJob :| true; job
  }

  /** The store a transaction leaves behind: its own when it commits, the old one when it rolls back. */
  function Committed(s: Store, result: Result<Store>): Store {
    if result.Ok? then result.value else s
  }

  /** Who writes an event, when, and on whose behalf. */
  datatype Origin = Origin(actor: string, at: Time, correlation: Option<Id>)

  function DraftOf(stream: Stream, thread: Option<Id>, origin: Origin, body: Body): Draft {
    Draft(stream, thread, origin.actor, origin.at, origin.correlation, None, body)
  }

  /** Appends an event that no projection is folded from. */
  function Log(s: Store, stream: Stream, thread: Option<Id>, origin: Origin, body: Body): Store {
    s.(journal := Insert(s.journal, DraftOf(stream, thread, origin, body)))
  }

  /** Appends a Thread event, reduces it onto the stored projection and stores the outcome. */
  function Emit(s: Store, thread: Id, origin: Origin, change: ThreadEvent): Result<Store> {
    EmitDraft(s, thread, ThreadDraft(thread, origin, change))
  }

  function EmitDraft(s: Store, thread: Id, draft: Draft): Result<Store> {
    var next :- Reduce(Lookup(s.threads, thread), Envelope(s.journal, draft));
    Ok(s.(journal := Insert(s.journal, draft), threads := s.threads[thread := next]))
  }

  /** `for draft in drafts: event = insert(draft); projection = reduce_thread(projection, event)`. */
  function EmitDrafts(s: Store, thread: Id, drafts: seq<Draft>): Result<Store> {
    if drafts == [] then Ok(s)
    else
      var earlier :- EmitDrafts(s, thread, drafts[..|drafts| - 1]);
      EmitDraft(earlier, thread, drafts[|drafts| - 1])
  }

  function ThreadDraft(thread: Id, origin: Origin, change: ThreadEvent): Draft {
    DraftOf(ThreadStream(thread), Some(thread), origin, OfThread(change))
  }

  /** Writes one scheduler row together with the scheduler event that accounts for it. */
  function WriteJob(s: Store, runId: Id, job: SchedulerJob, origin: Origin, event: JobEvent): Store {
    var draft := DraftOf(JobStream(runId), Some(job.threadId), origin, OfJob(event));
    s.(journal := Insert(s.journal, draft), jobs := s.jobs[runId := job])
  }

  /** Parts of the store that evolve independently of each other. */
  datatype Area = Threads | Jobs | Actions | Resources

  predicate InArea(stream: Stream, area: Area) {
    match area
    case Threads => stream.ThreadStream?
    case Jobs => stream.JobStream?
    case Actions => stream.ActionStream? || stream.ApprovalStream?
    case Resources => stream.ResourceStream?
  }

  predicate SameTables(s: Store, t: Store, area: Area) {
    match area
    case Threads => s.threads == t.threads
    case Jobs => s.jobs == t.jobs
    case Actions =>
      && s.intents == t.intents && s.intentByKey == t.intentByKey
      && s.approvals == t.approvals && s.approvalOf == t.approvalOf && s.receipts == t.receipts
    case Resources => s.fences == t.fences && s.leases == t.leases
  }

  /** From s to t the journal grew, and neither the area's tables nor its streams changed. */
  ghost predicate Quiet(s: Store, t: Store, area: Area) {
    && s.journal <= t.journal
    && SameTables(s, t, area)
    && forall i :: |s.journal| <= i < |t.journal| ==> !InArea(t.journal[i].stream, area)
  }
}
