/** The pure reducer of the Thread + Run aggregate. */
module Reducer {
  import opened Prelude
  import opened Vocabulary
  import opened Journal

  function ThreadTransitions(source: ThreadState): set<ThreadState> {
    match source
    case Created => {ThreadState.Dormant, ThreadState.Queued, ThreadState.Running, ThreadState.Cancelled}
    case Dormant => {ThreadState.Queued, ThreadState.Running, ThreadState.Cancelled, ThreadState.Archived}
    case Queued =>
      {ThreadState.Running, ThreadState.WaitingResource, ThreadState.Paused, ThreadState.Failed,
       ThreadState.Cancelled}
    case Running =>
      {ThreadState.Dormant, ThreadState.Queued, ThreadState.WaitingUser, ThreadState.WaitingApproval,
       ThreadState.WaitingReceipt, ThreadState.WaitingDependency, ThreadState.WaitingResource,
       ThreadState.Verifying, ThreadState.Delivered, ThreadState.Failed, ThreadState.Paused,
       ThreadState.Cancelled}
    case WaitingUser =>
      {ThreadState.Queued, ThreadState.Running, ThreadState.Paused, ThreadState.Failed, ThreadState.Cancelled}
    case WaitingApproval =>
      {ThreadState.Queued, ThreadState.Running, ThreadState.Paused, ThreadState.Failed, ThreadState.Cancelled}
    case WaitingReceipt =>
      {ThreadState.Queued, ThreadState.Running, ThreadState.Verifying, ThreadState.Paused,
       ThreadState.Failed, ThreadState.Cancelled}
    case WaitingDependency =>
      {ThreadState.Queued, ThreadState.Running, ThreadState.Failed, ThreadState.Cancelled}
    case WaitingResource =>
      {ThreadState.Queued, ThreadState.Running, ThreadState.Failed, ThreadState.Cancelled}
    case Verifying =>
      {ThreadState.Queued, ThreadState.Running, ThreadState.Delivered, ThreadState.Failed,
       ThreadState.Paused, ThreadState.Cancelled}
    case Delivered => {ThreadState.Queued, ThreadState.Running, ThreadState.Archived}
    case Failed =>
      {ThreadState.Queued, ThreadState.Running, ThreadState.Cancelled, ThreadState.Archived}
    case Paused =>
      {ThreadState.Queued, ThreadState.Running, ThreadState.Cancelled, ThreadState.Archived}
    case Cancelled => {ThreadState.Archived}
    case Archived => {}
  }

  function RunTransitions(source: RunState): set<RunState> {
    match source
    case Created => {RunState.Queued, RunState.Running, RunState.Cancelled}
    case Queued => {RunState.Running, RunState.WaitingResource, RunState.Failed, RunState.Cancelled}
    case Running =>
      {RunState.Queued, RunState.WaitingUser, RunState.WaitingApproval, RunState.WaitingReceipt,
       RunState.WaitingDependency, RunState.WaitingResource, RunState.Verifying, RunState.Completed,
       RunState.Partial, RunState.Failed, RunState.Quarantined, RunState.Cancelled}
    case WaitingUser =>
      {RunState.Running, RunState.Failed, RunState.Quarantined, RunState.Cancelled}
    case WaitingApproval =>
      {RunState.Running, RunState.Failed, RunState.Quarantined, RunState.Cancelled}
    case WaitingReceipt =>
      {RunState.Running, RunState.Verifying, RunState.Failed, RunState.Quarantined, RunState.Cancelled}
    case WaitingDependency => {RunState.Queued, RunState.Running, RunState.Failed, RunState.Cancelled}
    case WaitingResource => {RunState.Queued, RunState.Running, RunState.Failed, RunState.Cancelled}
    case Verifying =>
      {RunState.Running, RunState.Completed, RunState.Partial, RunState.Failed, RunState.Quarantined,
       RunState.Cancelled}
    case Completed => {}
    case Partial => {}
    case Failed => {}
    case Quarantined => {}
    case Cancelled => {}
  }

  function Stamp(thread: ThreadProjection, event: Event): ThreadProjection {
    thread.(revision := event.sequence, lastEvent := event.eventId, updatedAt := event.at)
  }

  function Reduce(thread: Option<ThreadProjection>, event: Event): Result<ThreadProjection> {
    if !event.body.OfThread? || !event.stream.ThreadStream? then Err(InvalidTransition)
    else if event.body.thread.ThreadCreated? then
      if thread.Some? then Err(InvalidTransition) else Ok(NewThread(event, event.body.thread))
    else if thread.None? then Err(InvalidTransition)
    else ReduceExisting(thread.value, event, event.body.thread)
  }

  function NewThread(event: Event, created: ThreadEvent): ThreadProjection
    requires created.ThreadCreated? && event.stream.ThreadStream?
  {
    ThreadProjection(
      event.stream.thread, created.projectId, created.title, created.desired, ThreadState.Created,
      AttentionState.Calm, event.sequence, created.branchId, None, [], None, event.eventId,
      event.at, event.at, map[], map[], [])
  }

  /** Every accepted event stamps its own sequence number on the Thread as its revision. */
  function ReduceExisting(p: ThreadProjection, event: Event, change: ThreadEvent): (r: Result<ThreadProjection>)
    ensures r.Ok? ==>
      && r.value.revision == event.sequence && r.value.lastEvent == event.eventId
      && r.value.threadId == p.threadId && r.value.projectId == p.projectId
  {
    match change
    case ThreadCreated(_, _, _, _) => Err(InvalidTransition)
    case ThreadStateChanged(source, target, waitingOn) =>
      if p.actual != source || target !in ThreadTransitions(source) then Err(InvalidTransition)
      else Ok(Stamp(p.(actual := target, waitingOn := waitingOn), event))
    case DesiredStateChanged(desired) => Ok(Stamp(p.(desired := desired), event))
    case AttentionChanged(attention) => Ok(Stamp(p.(attention := attention), event))
    case MessageAppended(_, _, _, _, _, _, _, _) => AppendMessage(p, event, change)
    case BranchForked(_, _, _, _, _) => ForkBranch(p, event, change)
    case BranchSelected(branchId) => SelectBranch(p, event, branchId)
    case BranchRejected(branchId) => RejectBranch(p, event, branchId)
    case RunCreated(_, _, _, _) => CreateRun(p, event, change)
    case RunStateChanged(_, _, _, _, _, _) => ChangeRunState(p, event, change)
    case SnapshotsBound(_, _, _, _) => BindSnapshots(p, event, change)
    case CheckpointRecorded(_, _, _) => RecordCheckpoint(p, event, change)
    case DeliveryRecorded(delivery) => Ok(Stamp(p.(latestDelivery := Some(delivery)), event))
    case Unsupported(_) => Err(InvalidTransition)
  }

  function AppendMessage(p: ThreadProjection, event: Event, change: ThreadEvent): Result<ThreadProjection>
    requires change.MessageAppended?
  {
    if p.HasUpdate(change.updateId) then Err(InvalidTransition)
    else
      var update := ThreadUpdateProjection(
        change.updateId, change.message, change.text, change.kind, event.actor, change.branchId, event.at,
        change.task, change.context, change.newRun);
      Ok(Stamp(p.(updates := p.updates + [update]), event))
  }

  function ForkBranch(p: ThreadProjection, event: Event, change: ThreadEvent): Result<ThreadProjection>
    requires change.BranchForked?
  {
    if change.branchId in p.branches then Err(InvalidTransition)
    else
      var source := if change.forkedFrom.Some? then change.forkedFrom.value else p.currentBranch;
      var registered :=
        if source in p.branches then p.branches
        else p.branches[source := RootBranch(p, source)];
      var branch := BranchProjection(
        change.branchId, BranchStatus.Active, event.actor, event.at, Some(source),
        Some(change.forkedFromEvent), Some(change.baseRevision), Some(change.reason), None, None);
      Ok(Stamp(p.(branches := registered[change.branchId := branch]), event))
  }

  function RootBranch(p: ThreadProjection, branchId: Id): BranchProjection {
    BranchProjection(
      branchId, BranchStatus.Selected, "runtime-migration", p.createdAt, None, None, None, None,
      Some(p.createdAt), None)
  }

  function SelectBranch(p: ThreadProjection, event: Event, branchId: Id): Result<ThreadProjection> {
    if branchId !in p.branches then Err(InvalidTransition)
    else
      var branches := map b | b in p.branches :: MarkBranch(p.branches[b], b == branchId, event.at);
      Ok(Stamp(p.(currentBranch := branchId, branches := branches), event))
  }

  function MarkBranch(branch: BranchProjection, chosen: bool, at: Time): BranchProjection {
    if chosen then branch.(status := BranchStatus.Selected, selectedAt := Some(at))
    else if branch.status.Selected? then branch.(status := BranchStatus.Active)
    else branch
  }

  function RejectBranch(p: ThreadProjection, event: Event, branchId: Id): Result<ThreadProjection> {
    if branchId !in p.branches || p.branches[branchId].status.Selected? then Err(InvalidTransition)
    else
      var rejected := p.branches[branchId].(status := BranchStatus.Rejected, rejectedAt := Some(event.at));
      Ok(Stamp(p.(branches := p.branches[branchId := rejected]), event))
  }

  function CreateRun(p: ThreadProjection, event: Event, change: ThreadEvent): Result<ThreadProjection>
    requires change.RunCreated?
  {
    if change.runId in p.runs then Err(InvalidTransition)
    else
      var run := NewRun(event, change);
      Ok(Stamp(p.(currentBranch := change.branchId, runs := p.runs[change.runId := run]), event))
  }

  function NewRun(event: Event, change: ThreadEvent): RunProjection
    requires change.RunCreated?
  {
    RunProjection(
      change.runId, change.branchId,
      if change.executorKey == "" then "unassigned" else change.executorKey,
      RunState.Created, 0, None, None, [], None, None, None, None, None, 0, None,
      event.at, event.sequence, change.supersedes)
  }

  function ChangeRunState(p: ThreadProjection, event: Event, change: ThreadEvent): Result<ThreadProjection>
    requires change.RunStateChanged?
  {
    var runId, to := change.runId, change.to;
    if runId !in p.runs || p.runs[runId].state != change.from then Err(InvalidTransition)
    else if to !in RunTransitions(change.from) then Err(InvalidTransition)
    else if to.Running? && p.activeRun.Some? && p.activeRun.value != runId then Err(InvalidTransition)
    else
      var active :=
        if to.Running? then Some(runId)
        else if Terminal(to) && p.activeRun == Some(runId) then None
        else p.activeRun;
      Ok(Stamp(p.(activeRun := active, runs := p.runs[runId := MoveRun(p.runs[runId], event.at, change)]), event))
  }

  function MoveRun(run: RunProjection, at: Time, change: ThreadEvent): RunProjection
    requires change.RunStateChanged?
  {
    run.(
      state := change.to,
      revision := run.revision + 1,
      startedAt := if change.to.Running? && run.startedAt.None? then Some(at) else run.startedAt,
      completedAt := if Terminal(change.to) then Some(at) else None,
      waitingOn := change.waitingOn,
      output := if change.output.Some? then change.output.value else run.output,
      error := change.error)
  }

  function BindSnapshots(p: ThreadProjection, event: Event, change: ThreadEvent): Result<ThreadProjection>
    requires change.SnapshotsBound?
  {
    var runId := change.runId;
    if runId !in p.runs || !(p.runs[runId].state.Created? || p.runs[runId].state.Queued?) then
      Err(InvalidTransition)
    else if p.runs[runId].task.Some? || p.runs[runId].agent.Some? || p.runs[runId].context.Some? then
      Err(InvalidTransition)
    else
      var run := p.runs[runId].(
        revision := p.runs[runId].revision + 1,
        task := Some(change.taskSnapshot),
        agent := Some(change.agentSnapshot),
        context := Some(change.contextManifest));
      Ok(Stamp(p.(runs := p.runs[runId := run]), event))
  }

  function RecordCheckpoint(p: ThreadProjection, event: Event, change: ThreadEvent): Result<ThreadProjection>
    requires change.CheckpointRecorded?
  {
    var runId := change.runId;
    if runId !in p.runs || Terminal(p.runs[runId].state) then Err(InvalidTransition)
    else if change.checkpointSequence != p.runs[runId].checkpointSequence + 1 then Err(InvalidTransition)
    else
      var run := p.runs[runId].(
        revision := p.runs[runId].revision + 1,
        checkpoint := Some(change.checkpoint),
        checkpointSequence := change.checkpointSequence);
      Ok(Stamp(p.(runs := p.runs[runId := run]), event))
  }

  /** The fold of the reducer over one Thread's stream; None before the Thread exists. */
  function Replay(journal: seq<Event>, thread: Id): Result<Option<ThreadProjection>> {
    if journal == [] then Ok(None)
    else
      var last := journal[|journal| - 1];
      var earlier :- Replay(journal[..|journal| - 1], thread);
      if last.stream != ThreadStream(thread) then Ok(earlier)
      else
        var next :- Reduce(earlier, last);
        Ok(Some(next))
  }

  // =========================================================================== every stream
  // What every accepted Thread event stream guarantees, whatever produced it.

  /** States a Run can be in only after it has run. */
  predicate OnlyAfterStart(state: RunState) {
    state.Running? || state.Verifying? || state.WaitingUser? || state.WaitingApproval?
    || state.WaitingReceipt? || state.WaitingDependency? || state.Completed? || state.Partial?
    || state.Quarantined?
  }

  /** A Run's row, seen with the active-run slot. */
  predicate FitsSlot(active: Option<Id>, r: Id, run: RunProjection) {
    && run.runId == r
    && (OnlyAfterStart(run.state) ==> run.startedAt.Some?)
    && (active == Some(r) <==> run.startedAt.Some? && !Terminal(run.state))
  }

  /** The active-run slot names exactly the Run that has started and has not ended. */
  ghost predicate SingleWriter(p: ThreadProjection) {
    && (p.activeRun.Some? ==> p.activeRun.value in p.runs)
    && forall r :: r in p.runs ==> FitsSlot(p.activeRun, r, p.runs[r])
  }

  /** The Thread an event leaves behind, accepted or not. */
  function Moved(p: ThreadProjection, result: Result<ThreadProjection>): ThreadProjection {
    if result.Ok? then result.value else p
  }

  /** Creating, binding and recording a checkpoint write one row and leave the slot. */
  lemma RowsKeepSingleWriter(p: ThreadProjection, event: Event, change: ThreadEvent)
    requires SingleWriter(p) && (change.RunCreated? || change.SnapshotsBound? || change.CheckpointRecorded?)
    requires ReduceExisting(p, event, change).Ok?
    ensures SingleWriter(Moved(p, ReduceExisting(p, event, change)))
  {
    hide ThreadTransitions, RunTransitions, ChangeRunState, AppendMessage, ForkBranch, SelectBranch, RejectBranch;
    if change.runId in p.runs {
      assert FitsSlot(p.activeRun, change.runId, p.runs[change.runId]);
    }
  }

  /** A Run's move takes or frees the slot with its state. */
  lemma MoveKeepsSingleWriter(p: ThreadProjection, event: Event, change: ThreadEvent)
    requires SingleWriter(p) && change.RunStateChanged? && ReduceExisting(p, event, change).Ok?
    ensures SingleWriter(Moved(p, ReduceExisting(p, event, change)))
  {
    hide ThreadTransitions, AppendMessage, ForkBranch, SelectBranch, RejectBranch, CreateRun, BindSnapshots,
      RecordCheckpoint;
    if change.runId in p.runs {
      assert FitsSlot(p.activeRun, change.runId, p.runs[change.runId]);
    }
  }

  lemma ReduceKeepsSingleWriter(p: ThreadProjection, event: Event, change: ThreadEvent)
    requires SingleWriter(p) && ReduceExisting(p, event, change).Ok?
    ensures SingleWriter(Moved(p, ReduceExisting(p, event, change)))
  {
    hide ReduceExisting;
    match change
    case RunStateChanged(_, _, _, _, _, _) => MoveKeepsSingleWriter(p, event, change);
    case RunCreated(_, _, _, _) => RowsKeepSingleWriter(p, event, change);
    case SnapshotsBound(_, _, _, _) => RowsKeepSingleWriter(p, event, change);
    case CheckpointRecorded(_, _, _) => RowsKeepSingleWriter(p, event, change);
    case _ =>
      OthersKeepRuns(p, event, change);
  }

  /** Everything that is no Run event leaves the Runs and the slot alone. */
  lemma OthersKeepRuns(p: ThreadProjection, event: Event, change: ThreadEvent)
    requires ReduceExisting(p, event, change).Ok?
    requires !change.RunCreated? && !change.RunStateChanged? && !change.SnapshotsBound? && !change.CheckpointRecorded?
    ensures var q := Moved(p, ReduceExisting(p, event, change)); q.runs == p.runs && q.activeRun == p.activeRun
  {
    hide ThreadTransitions, CreateRun, ChangeRunState, BindSnapshots, RecordCheckpoint;
  }

  /** Along every accepted stream the slot discipline holds. */
  lemma {:induction false} ReplaySingleWriter(journal: seq<Event>, thread: Id, p: ThreadProjection)
    requires Replay(journal, thread) == Ok(Some(p))
    ensures SingleWriter(p)
    decreases |journal|
  {
    hide FitsSlot, ReduceExisting;
    var n := |journal| - 1;
    var earlier := Replay(journal[..n], thread);
    if earlier.value.Some? {
      ReplaySingleWriter(journal[..n], thread, earlier.value.value);
      if journal[n].stream == ThreadStream(thread) {
        ReduceKeepsSingleWriter(earlier.value.value, journal[n], journal[n].body.thread);
      }
    }
  }

  /** No two Runs of a Thread can both be past their start and unfinished: not two running, not
      one running beside one verifying or waiting, not a retried one beside a running one. */
  lemma OneStartedRun(journal: seq<Event>, thread: Id, p: ThreadProjection, r1: Id, r2: Id)
    requires Replay(journal, thread) == Ok(Some(p))
    requires r1 in p.runs && RunAt(p, r1).startedAt.Some? && !Terminal(RunAt(p, r1).state)
    requires r2 in p.runs && !Terminal(RunAt(p, r2).state)
    requires OnlyAfterStart(RunAt(p, r2).state) || RunAt(p, r2).startedAt.Some?
    ensures r1 == r2
  {
    hide Replay, Terminal;
    ReplaySingleWriter(journal, thread, p);
  }

  /** An ended Run's record survives every later event of its Thread unchanged. */
  lemma ReduceFreezesEndedRuns(p: ThreadProjection, event: Event, q: ThreadProjection, r: Id)
    requires Reduce(Some(p), event) == Ok(q)
    requires r in p.runs && Terminal(RunAt(p, r).state)
    ensures r in q.runs && RunAt(q, r) == RunAt(p, r)
  {
    hide ThreadTransitions, AppendMessage, ForkBranch, SelectBranch, RejectBranch;
    var change := event.body.thread;
    if !change.RunCreated? && !change.RunStateChanged? && !change.SnapshotsBound? && !change.CheckpointRecorded? {
      hide ReduceExisting;
      OthersKeepRuns(p, event, change);
    }
  }

  lemma {:induction false} ReplayFreezesEndedRuns(
    before: seq<Event>, after: seq<Event>, thread: Id, p: ThreadProjection, r: Id) returns (q: ThreadProjection)
    requires before <= after && Replay(before, thread) == Ok(Some(p)) && Replay(after, thread).Ok?
    requires r in p.runs && Terminal(RunAt(p, r).state)
    ensures Replay(after, thread) == Ok(Some(q)) && r in q.runs && RunAt(q, r) == RunAt(p, r)
    decreases |after|
  {
    hide Reduce, Terminal;
    if |before| == |after| {
      assert before == after;
      q := p;
    } else {
      var n := |after| - 1;
      assert before <= after[..n];
      q := ReplayFreezesEndedRuns(before, after[..n], thread, p, r);
      if after[n].stream == ThreadStream(thread) {
        var earlier := q;
        q := Reduce(Some(q), after[n]).value;
        ReduceFreezesEndedRuns(earlier, after[n], q, r);
      }
    }
  }

  /** A replayable stream has a Thread exactly when it has an event, and its revision counts them. */
  lemma {:induction false} RevisionCountsEvents(journal: seq<Event>, thread: Id)
    requires Sequenced(journal) && Replay(journal, thread).Ok?
    ensures match Replay(journal, thread)
      case Ok(None) => Count(journal, ThreadStream(thread)) == 0
      case Ok(Some(p)) => p.revision == Count(journal, ThreadStream(thread)) > 0 && p.threadId == thread
      case Err(_) => false
    decreases |journal|
  {
    hide ReduceExisting;
    if journal != [] {
      var n := |journal| - 1;
      SequencedPrefix(journal, n);
      RevisionCountsEvents(journal[..n], thread);
    }
  }

  /** A prefix of a replayable journal is replayable. */
  lemma {:induction false} ReplayPrefix(before: seq<Event>, after: seq<Event>, thread: Id)
    requires before <= after
    requires Replay(after, thread).Ok?
    ensures Replay(before, thread).Ok?
    decreases |after|
  {
    hide Reduce;
    if |before| == |after| {
      assert before == after;
    } else {
      assert before <= after[..|after| - 1];
      ReplayPrefix(before, after[..|after| - 1], thread);
    }
  }

  /** The optimistic check is sound: a Thread seen earlier with the revision it has now is the
      Thread as it is now, in every field. */
  lemma {:induction false} SameRevisionSameThread(
    before: seq<Event>, after: seq<Event>, thread: Id, p: ThreadProjection, q: ThreadProjection)
    requires before <= after && Sequenced(before) && Sequenced(after)
    requires Replay(before, thread) == Ok(Some(p)) && Replay(after, thread) == Ok(Some(q))
    requires p.revision == q.revision
    ensures p == q
    decreases |after|
  {
    hide Reduce;
    RevisionCountsEvents(before, thread);
    RevisionCountsEvents(after, thread);
    if |before| == |after| {
      assert before == after;
    } else {
      var n := |after| - 1;
      assert before <= after[..n];
      CountMonotone(before, after[..n], ThreadStream(thread));
      assert after[n].stream != ThreadStream(thread);
      SequencedPrefix(after, n);
      SameRevisionSameThread(before, after[..n], thread, p, q);
    }
  }
}
