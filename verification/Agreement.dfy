/** What a Thread aggregate looks like between transactions of the closed protocol. */
module Agreement {
  import opened Prelude
  import opened Vocabulary
  import opened Journal
  import opened Reducer
  import opened Store
  import opened Snapshots
  import opened Scheduler
  import opened Actions
  import opened Lifecycle
  import opened Resources
  import opened Integrity

  /** One accepted event, numbered next, takes p to q. */
  ghost predicate Moves(p: ThreadProjection, change: ThreadEvent, q: ThreadProjection) {
    exists event: Event :: event.sequence == p.revision + 1 && ReduceExisting(p, event, change) == Ok(q)
  }

  // ---------------------------------------------------------------- lineage

  predicate Earlier(p: ThreadProjection, a: Id, b: Id)
    requires a in p.runs && b in p.runs
  {
    p.runs[a].createdSequence < p.runs[b].createdSequence
  }

  ghost predicate RunsNumbered(p: ThreadProjection) {
    && (forall r :: r in p.runs ==> RunAt(p, r).createdSequence <= p.revision)
    && (forall a, b :: a in p.runs && b in p.runs && a != b ==>
          RunAt(p, a).createdSequence != RunAt(p, b).createdSequence)
  }

  ghost predicate Latest(p: ThreadProjection, l: Id) {
    l in p.runs && forall r :: r in p.runs && r != l ==> Earlier(p, r, l)
  }

  /** `before` is the Run created just before r; None when r is the first. */
  ghost predicate JustBefore(p: ThreadProjection, before: Option<Id>, r: Id) {
    r in p.runs
    && match before
    case None => forall x :: x in p.runs && x != r ==> Earlier(p, r, x)
    case Some(b) =>
      && b in p.runs && Earlier(p, b, r)
      && forall x :: x in p.runs && x != r && x != b ==> Earlier(p, x, b) || Earlier(p, r, x)
  }

  /** The supersedes links are one chain through all Runs in the order they were created. */
  ghost predicate LineageOK(p: ThreadProjection) {
    RunsNumbered(p) && forall r :: r in p.runs ==> JustBefore(p, p.runs[r].supersedes, r)
  }

  // ---------------------------------------------------------------- branches

  function Base(branch: BranchProjection): int {
    if branch.baseRevision.Some? then branch.baseRevision.value else -1
  }

  /** A fork's parent is registered and was forked at an earlier revision; a root has no parent. */
  ghost predicate ForkOK(p: ThreadProjection, b: Id)
    requires b in p.branches
  {
    var branch := p.branches[b];
    && Base(branch) < p.revision
    && (branch.forkedFrom.Some? ==>
          && branch.baseRevision.Some? && branch.forkedFrom.value in p.branches
          && Base(p.branches[branch.forkedFrom.value]) < Base(branch))
  }

  ghost predicate OneSelected(p: ThreadProjection) {
    && p.currentBranch in p.branches
    && forall b :: b in p.branches ==> (p.branches[b].status.Selected? <==> b == p.currentBranch)
  }

  /** Either no branch is registered, or exactly one is selected and it is the current one. */
  ghost predicate BranchesOK(p: ThreadProjection) {
    && (p.branches != map[] ==> OneSelected(p))
    && (forall b :: b in p.branches ==> ForkOK(p, b))
    && (forall a, b :: a in p.branches && b in p.branches ==>
          p.branches[a].forkedFrom.None? && p.branches[b].forkedFrom.None? ==> a == b)
  }

  // ---------------------------------------------------------------- frozen inputs

  predicate Bound(run: RunProjection) {
    run.task.Some? && run.agent.Some? && run.context.Some?
  }

  /** Inputs are bound together, are readable, and list their items in increasing order. */
  predicate InputsOK(run: RunProjection) {
    && (Bound(run) || (run.task.None? && run.agent.None? && run.context.None?))
    && (Bound(run) ==>
          run.task.value.TaskArtifact? && run.context.value.ContextArtifact? && Increasing(ItemsOf(run.context)))
  }

  /** The later task keeps the earlier one's identity, acceptance criteria, constraints and inputs, and has at most one
      constraint more. */
  ghost predicate TaskGrows(before: Option<Artifact>, after: Option<Artifact>) {
    before.Some? && after.Some? ==>
      && before.value.TaskArtifact? && after.value.TaskArtifact?
      && var earlier, later := before.value.task, after.value.task;
      && later.taskId == earlier.taskId && later.acceptanceCriteria == earlier.acceptanceCriteria
      && earlier.constraints <= later.constraints && |later.constraints| <= |earlier.constraints| + 1
      && forall x :: x in earlier.inputs ==> x in later.inputs
  }

  /** A superseding Run's context is its predecessor's with exactly its own update's item behind, and its task
      goes on from its predecessor's. */
  ghost predicate ContextGrows(p: ThreadProjection, r: Id)
    requires r in p.runs
  {
    var before := p.runs[r].supersedes;
    before.Some? && before.value in p.runs && Bound(p.runs[r]) ==>
      var earlier, later := ItemsOf(p.runs[before.value].context), ItemsOf(p.runs[r].context);
      && |later| == |earlier| + 1 && later[..|earlier|] == earlier
      && r == UpdateRunOf(later[|earlier|].sourceRef)
      && TaskGrows(p.runs[before.value].task, p.runs[r].task)
  }

  ghost predicate ContextsOK(p: ThreadProjection) {
    forall r :: r in p.runs ==> InputsOK(p.runs[r]) && ContextGrows(p, r)
  }

  /** Ids derived from a message appear only in a Thread that has taken that message. */
  ghost predicate KeysOK(p: ThreadProjection) {
    && (p.currentBranch.BranchOf? ==> p.HasUpdate(p.currentBranch.message))
    && (forall b :: b in p.branches && b.BranchOf? ==> p.HasUpdate(b.message))
    && (forall r :: r in p.runs && r.UpdateRunOf? ==> p.HasUpdate(r.message))
  }

  /** What every event of the closed protocol keeps. */
  ghost predicate Skeleton(p: ThreadProjection) {
    SingleWriter(p) && LineageOK(p) && BranchesOK(p) && ContextsOK(p) && KeysOK(p)
  }

  // ---------------------------------------------------------------- the boundary shape

  predicate Ended(state: RunState) {
    state.Completed? || state.Failed? || state.Cancelled?
  }

  /** The Thread's state and wish mirror the state of its newest Run. */
  predicate Mirrors(p: ThreadProjection, state: RunState) {
    match p.actual
    case Queued => state.Queued? && p.desired.Run?
    case Running => state.Running? && p.desired.Run?
    case Dormant => state.Completed? && p.desired.Run?
    case Delivered => state.Completed? && p.desired.Run?
    case Failed => state.Failed? && p.desired.Run?
    case Cancelled => Ended(state) && p.desired.Cancel?
    case _ => false
  }

  /** l is the newest Run: only it may be unfinished, and it lies on the current branch. */
  ghost predicate Led(p: ThreadProjection, l: Id) {
    && Latest(p, l)
    && p.runs[l].branchId == p.currentBranch
    && (forall r :: r in p.runs && r != l ==> Ended(p.runs[r].state))
    && (forall r :: r in p.runs && p.runs[r].supersedes.Some? ==> Bound(p.runs[r]))
  }

  ghost predicate Shaped(p: ThreadProjection, l: Id) {
    Skeleton(p) && Led(p, l) && Mirrors(p, RunAt(p, l).state)
  }

  ghost predicate ThreadOK(p: ThreadProjection) {
    exists l :: Shaped(p, l)
  }

  // ---------------------------------------------------------------- events that move no Run or branch

  /** q has p's Runs, up to their states, and p's branches. */
  ghost predicate SameFrame(p: ThreadProjection, q: ThreadProjection) {
    && p.revision <= q.revision
    && q.branches == p.branches && q.currentBranch == p.currentBranch
    && p.updates <= q.updates
    && q.runs.Keys == p.runs.Keys
    && forall r :: r in p.runs ==>
         && q.runs[r].createdSequence == p.runs[r].createdSequence
         && q.runs[r].branchId == p.runs[r].branchId
         && q.runs[r].supersedes == p.runs[r].supersedes
         && q.runs[r].executorKey == p.runs[r].executorKey
         && q.runs[r].task == p.runs[r].task && q.runs[r].agent == p.runs[r].agent
         && q.runs[r].context == p.runs[r].context
  }

  predicate KeepsFrame(change: ThreadEvent) {
    change.ThreadStateChanged? || change.DesiredStateChanged? || change.AttentionChanged? || change.MessageAppended?
    || change.RunStateChanged? || change.CheckpointRecorded? || change.DeliveryRecorded?
  }

  /** q has p's Runs with their numbers and links. */
  ghost predicate SameLineage(p: ThreadProjection, q: ThreadProjection) {
    && p.revision <= q.revision
    && q.runs.Keys == p.runs.Keys
    && forall r :: r in p.runs ==>
         RunAt(q, r).createdSequence == RunAt(p, r).createdSequence && RunAt(q, r).supersedes == RunAt(p, r).supersedes
  }

  lemma SameLineageKeeps(p: ThreadProjection, q: ThreadProjection)
    requires LineageOK(p) && SameLineage(p, q)
    ensures LineageOK(q)
  {
    forall r | r in q.runs
      ensures JustBefore(q, q.runs[r].supersedes, r)
    {
      forall a, b | a in q.runs && b in q.runs
        ensures Earlier(q, a, b) == Earlier(p, a, b)
      {
      }
    }
  }

  lemma SameLineageKeepsLatest(p: ThreadProjection, q: ThreadProjection, l: Id)
    requires Latest(p, l) && SameLineage(p, q)
    ensures Latest(q, l)
  {
    forall r | r in q.runs && r != l
      ensures Earlier(q, r, l)
    {
      assert Earlier(p, r, l);
    }
  }

  lemma FrameKeepsLinks(p: ThreadProjection, q: ThreadProjection)
    requires SameFrame(p, q)
    ensures SameLineage(p, q)
  {
  }

  lemma FrameKeepsBranches(p: ThreadProjection, q: ThreadProjection)
    requires BranchesOK(p) && SameFrame(p, q)
    ensures BranchesOK(q)
  {
    forall b | b in q.branches
      ensures ForkOK(q, b)
    {
      assert ForkOK(p, b);
    }
  }

  lemma FrameKeepsContexts(p: ThreadProjection, q: ThreadProjection)
    requires ContextsOK(p) && SameFrame(p, q)
    ensures ContextsOK(q)
  {
    forall r | r in q.runs
      ensures InputsOK(q.runs[r]) && ContextGrows(q, r)
    {
      assert InputsOK(p.runs[r]) && ContextGrows(p, r);
    }
  }

  lemma FrameKeepsKeys(p: ThreadProjection, q: ThreadProjection)
    requires KeysOK(p) && SameFrame(p, q)
    ensures KeysOK(q)
  {
    forall update | p.HasUpdate(update)
      ensures q.HasUpdate(update)
    {
    }
  }

  lemma MovesKeepSingleWriter(p: ThreadProjection, change: ThreadEvent, q: ThreadProjection)
    requires SingleWriter(p) && Moves(p, change, q)
    ensures SingleWriter(q)
  {
    hide ReduceExisting, SingleWriter;
    var event: Event :| event.sequence == p.revision + 1 && ReduceExisting(p, event, change) == Ok(q);
    ReduceKeepsSingleWriter(p, event, change);
  }

  lemma FrameKept(p: ThreadProjection, change: ThreadEvent, q: ThreadProjection)
    requires KeepsFrame(change) && Moves(p, change, q)
    ensures SameFrame(p, q) && q.revision == p.revision + 1
  {
    hide ThreadTransitions, RunTransitions, Terminal;
  }

  lemma FrameKeepsSkeleton(p: ThreadProjection, change: ThreadEvent, q: ThreadProjection)
    requires Skeleton(p) && KeepsFrame(change) && Moves(p, change, q)
    ensures Skeleton(q) && SameFrame(p, q) && q.revision == p.revision + 1
  {
    FrameKept(p, change, q);
    hide SingleWriter, LineageOK, BranchesOK, ContextsOK, KeysOK, Moves, KeepsFrame;
    MovesKeepSingleWriter(p, change, q);
    FrameKeepsLinks(p, q);
    SameLineageKeeps(p, q);
    FrameKeepsBranches(p, q);
    FrameKeepsContexts(p, q);
    FrameKeepsKeys(p, q);
  }

  /** What stays when neither the newest Run's place nor any other Run's end is touched. */
  lemma FrameKeepsLed(p: ThreadProjection, q: ThreadProjection, l: Id)
    requires Led(p, l) && SameFrame(p, q)
    requires forall r :: r in p.runs && r != l ==> RunAt(q, r).state == RunAt(p, r).state
    ensures Led(q, l)
  {
    hide Latest;
    SameLineageKeepsLatest(p, q, l);
  }

  // ---------------------------------------------------------------- exact effects of the events

  lemma MovedThread(p: ThreadProjection, from: ThreadState, to: ThreadState, waitingOn: seq<string>,
      q: ThreadProjection)
    requires Moves(p, ThreadStateChanged(from, to, waitingOn), q)
    ensures p.actual == from && to in ThreadTransitions(from)
    ensures q.actual == to && q.desired == p.desired && q.runs == p.runs && q.activeRun == p.activeRun
    ensures q.latestDelivery == p.latestDelivery
  {
  }

  lemma MovedAside(p: ThreadProjection, change: ThreadEvent, q: ThreadProjection)
    requires change.AttentionChanged? || change.MessageAppended? || change.DeliveryRecorded?
    requires Moves(p, change, q)
    ensures q.actual == p.actual && q.desired == p.desired && q.runs == p.runs && q.activeRun == p.activeRun
    ensures match change
      case DeliveryRecorded(delivery) => q.latestDelivery == Some(delivery)
      case _ => q.latestDelivery == p.latestDelivery
  {
  }

  lemma MovedRun(
    p: ThreadProjection, r: Id, from: RunState, to: RunState, waitingOn: seq<string>, output: Option<Option<Artifact>>,
    error: Option<string>, q: ThreadProjection)
    requires Moves(p, RunStateChanged(r, from, to, waitingOn, output, error), q)
    ensures r in p.runs && RunAt(p, r).state == from && to in RunTransitions(from)
    ensures r in q.runs && RunAt(q, r).state == to
    ensures RunAt(q, r).output == if output.Some? then The(output) else RunAt(p, r).output
    ensures q.runs == p.runs[r := RunAt(q, r)]
    ensures q.actual == p.actual && q.desired == p.desired && q.latestDelivery == p.latestDelivery
    ensures !to.Running? && !Terminal(to) ==> q.activeRun == p.activeRun
  {
  }

  // =========================================================================== thread growth
  // How forks and new Runs extend a Thread without breaking its shape.

  /** q is p with other branches and another current branch. */
  ghost predicate OnlyBranches(p: ThreadProjection, q: ThreadProjection) {
    && q.revision == p.revision + 1
    && q.actual == p.actual && q.desired == p.desired && q.runs == p.runs && q.activeRun == p.activeRun
    && q.latestDelivery == p.latestDelivery && q.updates == p.updates
  }

  /** The registry after a fork: the source registered as the root if it was not, and the fork. */
  lemma ForkedExact(
    p: ThreadProjection, branch: Id, eventId: EventId, base: nat, reason: string, q: ThreadProjection)
    requires Moves(p, BranchForked(branch, Some(p.currentBranch), eventId, base, reason), q)
    requires branch != p.currentBranch
    ensures OnlyBranches(p, q) && q.currentBranch == p.currentBranch && branch in q.branches && branch !in p.branches
    ensures q.branches.Keys == p.branches.Keys + {p.currentBranch, branch}
    ensures forall b :: b in p.branches ==> Row(q.branches, b) == Row(p.branches, b)
    ensures var fork := Row(q.branches, branch);
      fork.status.Active? && fork.forkedFrom == Some(p.currentBranch) && fork.baseRevision == Some(base)
    ensures p.currentBranch !in p.branches ==>
      var root := Row(q.branches, p.currentBranch);
      root.status.Selected? && root.forkedFrom.None? && root.baseRevision.None?
  {
    hide AppendMessage, ChangeRunState, RecordCheckpoint, RejectBranch, SelectBranch, ThreadTransitions;
  }

  lemma Forked(
    p: ThreadProjection, branch: Id, eventId: EventId, base: nat, reason: string, q: ThreadProjection)
    requires BranchesOK(p)
    requires Moves(p, BranchForked(branch, Some(p.currentBranch), eventId, base, reason), q)
    requires branch != p.currentBranch && base <= p.revision
    requires forall b :: b in p.branches ==> Base(Row(p.branches, b)) < base
    ensures OnlyBranches(p, q) && q.currentBranch == p.currentBranch && branch in q.branches
    ensures q.branches.Keys == p.branches.Keys + {p.currentBranch, branch}
    ensures BranchesOK(q)
  {
    hide Moves;
    ForkedExact(p, branch, eventId, base, reason, q);
    forall b | b in q.branches
      ensures ForkOK(q, b)
    {
      assert b in p.branches ==> ForkOK(p, b);
    }
  }

  lemma ChosenMarks(p: ThreadProjection, branch: Id, q: ThreadProjection)
    requires Moves(p, BranchSelected(branch), q)
    ensures OnlyBranches(p, q) && q.currentBranch == branch && branch in p.branches
    ensures q.branches.Keys == p.branches.Keys
    ensures forall b :: b in p.branches ==>
      && (Row(q.branches, b).status.Selected? <==> b == branch)
      && Row(q.branches, b).forkedFrom == Row(p.branches, b).forkedFrom
      && Row(q.branches, b).baseRevision == Row(p.branches, b).baseRevision
  {
  }

  lemma Chosen(p: ThreadProjection, branch: Id, q: ThreadProjection)
    requires BranchesOK(p) && Moves(p, BranchSelected(branch), q)
    ensures OnlyBranches(p, q) && q.currentBranch == branch && branch in p.branches
    ensures q.branches.Keys == p.branches.Keys
    ensures BranchesOK(q)
  {
    hide Moves;
    ChosenMarks(p, branch, q);
    forall b | b in q.branches
      ensures ForkOK(q, b)
    {
      assert ForkOK(p, b);
    }
  }

  /** Branch events touch nothing the Run part of the skeleton reads. */
  lemma BranchesKeepSkeleton(p: ThreadProjection, q: ThreadProjection)
    requires Skeleton(p) && OnlyBranches(p, q) && BranchesOK(q)
    requires forall b :: b in q.branches.Keys + {q.currentBranch} ==>
      b in p.branches.Keys + {p.currentBranch} || !b.BranchOf? || exists m :: b == BranchOf(m) && p.HasUpdate(m)
    ensures Skeleton(q)
  {
    hide BranchesOK, LineageOK, InputsOK, Terminal;
    forall update | p.HasUpdate(update)
      ensures q.HasUpdate(update)
    {
    }
    SameLineageKeeps(p, q);
    forall r | r in q.runs
      ensures InputsOK(q.runs[r]) && ContextGrows(q, r)
    {
      assert InputsOK(p.runs[r]) && ContextGrows(p, r);
    }
  }

  /** The newest Run, or none at all. */
  ghost predicate LatestOf(p: ThreadProjection, l: Option<Id>) {
    if l.None? then p.runs == map[] else Latest(p, l.value)
  }

  /** The state of affairs just before a new Run is created: every earlier Run has ended. */
  ghost predicate Cleared(p: ThreadProjection, l: Option<Id>) {
    && Skeleton(p) && LatestOf(p, l)
    && p.desired.Run?
    && (p.actual.Created? || p.actual.Queued? || p.actual.Running? || p.actual.Dormant? || p.actual.Failed?
        || p.actual.Delivered?)
    && (forall r :: r in p.runs ==> Ended(RunAt(p, r).state))
    && (forall r :: r in p.runs && RunAt(p, r).supersedes.Some? ==> Bound(RunAt(p, r)))
  }

  /** What creating a Run does. */
  ghost predicate Adds(p: ThreadProjection, r: Id, q: ThreadProjection) {
    && r !in p.runs && r in q.runs && q.runs == p.runs[r := q.runs[r]]
    && q.branches == p.branches && q.actual == p.actual && q.desired == p.desired && q.activeRun == p.activeRun
    && q.latestDelivery == p.latestDelivery && q.updates == p.updates && q.revision == p.revision + 1
  }

  lemma CreatedExact(
    p: ThreadProjection, r: Id, branch: Id, key: string, l: Option<Id>, q: ThreadProjection)
    requires RunsNumbered(p) && Moves(p, RunCreated(r, branch, key, l), q)
    ensures Adds(p, r, q) && q.currentBranch == branch
    ensures var run := RunAt(q, r);
      && run.state.Created? && run.branchId == branch && run.supersedes == l && run.createdSequence == q.revision
      && run.task.None? && run.agent.None? && run.context.None? && run.startedAt.None?
      && run.executorKey == (if key == "" then "unassigned" else key) && run.runId == r
  {
    hide AppendMessage, ChangeRunState, RecordCheckpoint, RejectBranch, SelectBranch, ThreadTransitions;
  }

  lemma AddsKeepsLineage(p: ThreadProjection, r: Id, l: Option<Id>, q: ThreadProjection)
    requires LineageOK(p) && LatestOf(p, l) && Adds(p, r, q)
    requires RunAt(q, r).supersedes == l && RunAt(q, r).createdSequence == q.revision
    ensures LineageOK(q) && Latest(q, r)
  {
    forall x | x in q.runs && x != r
      ensures JustBefore(q, q.runs[x].supersedes, x) && Earlier(q, x, r)
    {
    }
    AddedLink(p, r, l, q);
  }

  lemma AddedLink(p: ThreadProjection, r: Id, l: Option<Id>, q: ThreadProjection)
    requires RunsNumbered(p) && LatestOf(p, l) && Adds(p, r, q)
    requires RunAt(q, r).supersedes == l && RunAt(q, r).createdSequence == q.revision
    ensures JustBefore(q, l, r)
  {
    if l.Some? {
      forall x | x in q.runs && x != r && x != l.value
        ensures Earlier(q, x, l.value)
      {
        assert Earlier(p, x, l.value);
      }
    }
  }

  lemma AddsKeepsContexts(p: ThreadProjection, r: Id, q: ThreadProjection)
    requires ContextsOK(p) && LineageOK(p) && Adds(p, r, q)
    requires RunAt(q, r).task.None? && RunAt(q, r).agent.None? && RunAt(q, r).context.None?
    ensures ContextsOK(q)
  {
    forall x | x in q.runs
      ensures InputsOK(q.runs[x]) && ContextGrows(q, x)
    {
      if x != r {
        assert InputsOK(p.runs[x]) && ContextGrows(p, x);
        assert JustBefore(p, p.runs[x].supersedes, x);
      }
    }
  }

  lemma CreatedKeepsSkeleton(
    p: ThreadProjection, r: Id, key: string, l: Option<Id>, q: ThreadProjection)
    requires Skeleton(p) && LatestOf(p, l)
    requires Moves(p, RunCreated(r, p.currentBranch, key, l), q)
    requires match r case UpdateRunOf(message) => p.HasUpdate(message) case _ => true
    ensures Skeleton(q) && Latest(q, r) && Adds(p, r, q) && q.currentBranch == p.currentBranch
  {
    hide AppendMessage, ChangeRunState, RecordCheckpoint, RejectBranch, SelectBranch, ThreadTransitions;
    MovesKeepSingleWriter(p, RunCreated(r, p.currentBranch, key, l), q);
    hide SingleWriter, LineageOK, ContextsOK, KeysOK, Latest, LatestOf;
    AddsKeepsLineage(p, r, l, q);
    hide Moves;
    assert KeysOK(q) by {
      forall update | p.HasUpdate(update)
        ensures q.HasUpdate(update)
      {
      }
    }
    assert BranchesOK(q) by {
      forall b | b in q.branches
        ensures ForkOK(q, b)
      {
        assert ForkOK(p, b);
      }
    }
    AddsKeepsContexts(p, r, q);
  }

  /** What binding a Run's inputs does. */
  ghost predicate Binds(p: ThreadProjection, r: Id, task: Artifact, agent: Artifact, context: Artifact,
      q: ThreadProjection) {
    && r in p.runs && r in q.runs && q.runs == p.runs[r := q.runs[r]]
    && q.runs[r] == p.runs[r].(revision := q.runs[r].revision, task := Some(task), agent := Some(agent),
        context := Some(context))
    && q.branches == p.branches && q.currentBranch == p.currentBranch
    && q.actual == p.actual && q.desired == p.desired && q.activeRun == p.activeRun
    && q.latestDelivery == p.latestDelivery && q.updates == p.updates && q.revision == p.revision + 1
  }

  lemma BoundTo(p: ThreadProjection, r: Id, task: Artifact, agent: Artifact, context: Artifact, q: ThreadProjection)
    requires Moves(p, SnapshotsBound(r, task, agent, context), q)
    ensures Binds(p, r, task, agent, context, q)
    ensures (p.runs[r].state.Created? || p.runs[r].state.Queued?) && p.runs[r].context.None?
  {
  }

  /** The inputs an update may bind to the newest Run: readable, and one item beyond its predecessor's. */
  ghost predicate FitInputs(p: ThreadProjection, r: Id, task: Artifact, context: Artifact) {
    && r in p.runs && task.TaskArtifact? && context.ContextArtifact? && Increasing(context.manifest.items)
    && var before := p.runs[r].supersedes;
    && (before.Some? ==>
          && before.value in p.runs
          && var earlier, later := ItemsOf(p.runs[before.value].context), context.manifest.items;
          && |later| == |earlier| + 1 && later[..|earlier|] == earlier
          && r == UpdateRunOf(later[|earlier|].sourceRef)
          && TaskGrows(p.runs[before.value].task, Some(task)))
  }

  lemma BindsKeepsLineage(
    p: ThreadProjection, r: Id, task: Artifact, agent: Artifact, context: Artifact, q: ThreadProjection)
    requires LineageOK(p) && Latest(p, r) && Binds(p, r, task, agent, context, q)
    ensures LineageOK(q) && Latest(q, r)
  {
    hide LineageOK, Latest;
    assert q.runs.Keys == p.runs.Keys;
    SameLineageKeeps(p, q);
    SameLineageKeepsLatest(p, q, r);
  }

  lemma BindsKeepsContexts(
    p: ThreadProjection, r: Id, task: Artifact, agent: Artifact, context: Artifact, q: ThreadProjection)
    requires ContextsOK(p) && LineageOK(p) && Latest(p, r) && Binds(p, r, task, agent, context, q)
    requires FitInputs(p, r, task, context)
    ensures ContextsOK(q)
  {
    forall x | x in q.runs
      ensures InputsOK(q.runs[x]) && ContextGrows(q, x)
    {
      assert JustBefore(p, p.runs[x].supersedes, x);
      if x != r {
        assert InputsOK(p.runs[x]) && ContextGrows(p, x);
        assert Earlier(p, x, r);
      }
    }
  }

  lemma BoundKeepsSkeleton(
    p: ThreadProjection, r: Id, task: Artifact, agent: Artifact, context: Artifact, q: ThreadProjection)
    requires Skeleton(p) && Latest(p, r) && Moves(p, SnapshotsBound(r, task, agent, context), q)
    requires r in p.runs && FitInputs(p, r, task, context)
    ensures Skeleton(q) && Latest(q, r) && Binds(p, r, task, agent, context, q)
  {
    hide TaskGrows, InputsOK, ContextGrows;
    BoundTo(p, r, task, agent, context, q);
    MovesKeepSingleWriter(p, SnapshotsBound(r, task, agent, context), q);
    hide Moves, SingleWriter, FitInputs, Binds, LineageOK, BranchesOK, ContextsOK, KeysOK, Latest;
    BindsKeepsLineage(p, r, task, agent, context, q);
    BindsKeepsContexts(p, r, task, agent, context, q);
  }

  // ---------------------------------------------------------------- transactions on one Thread

  /** A cleared Thread with a freshly created, bound and queued Run, brought to QUEUED itself. */
  ghost predicate Refilled(p: ThreadProjection, r: Id, q: ThreadProjection) {
    && Skeleton(q) && Latest(q, r)
    && r !in p.runs && q.runs == p.runs[r := RunAt(q, r)]
    && RunAt(q, r).state.Queued? && RunAt(q, r).branchId == q.currentBranch
    && q.actual == p.actual && q.desired == p.desired && q.latestDelivery == p.latestDelivery
  }

  // =========================================================================== agreement
  // Thread, Run and job agree after every transaction of the closed protocol.

  /** Which Run states a job state allows. An exhausted job has failed while its Run is still open. */
  predicate Matches(run: RunState, job: SchedulerJob) {
    match job.state
    case Queued => run.Queued?
    case Claimed => run.Queued? || run.Running?
    case Completed => run.Completed?
    case Cancelled => run.Cancelled?
    case Failed =>
      run.Failed? || run.Cancelled? || ((run.Queued? || run.Running?) && job.attempts >= job.maxAttempts)
  }

  /** Run r of Thread t has its job, under the same executor. */
  predicate HasJob(s: Store, t: Id, r: Id) {
    && t in s.threads && r in s.threads[t].runs && r in s.jobs
    && s.jobs[r].threadId == t && s.jobs[r].executorKey == s.threads[t].runs[r].executorKey
  }

  predicate Coupled(s: Store, t: Id, r: Id) {
    HasJob(s, t, r) && Matches(s.threads[t].runs[r].state, s.jobs[r])
  }

  ghost predicate AgreesOn(s: Store, t: Id) {
    && t in s.threads && ThreadAt(s, t).threadId == t && ThreadOK(ThreadAt(s, t))
    && forall r :: r in ThreadAt(s, t).runs ==> Coupled(s, t, r)
  }

  ghost predicate JobsOwned(s: Store) {
    forall r :: r in s.jobs ==> JobAt(s, r).threadId in s.threads && r in ThreadAt(s, JobAt(s, r).threadId).runs
  }

  ghost predicate AgreeInv(s: Store) {
    JobsOwned(s) && forall t :: t in s.threads ==> AgreesOn(s, t)
  }

  // ---------------------------------------------------------------- in the middle of a transaction

  /** Work on Thread t is under way at its newest Run l; everything else agrees. */
  ghost predicate Mid(s: Store, t: Id, l: Id) {
    && JobsOwned(s)
    && (forall x :: x in s.threads && x != t ==> AgreesOn(s, x))
    && t in s.threads && ThreadAt(s, t).threadId == t
    && Skeleton(ThreadAt(s, t)) && Led(ThreadAt(s, t), l)
    && (forall r :: r in ThreadAt(s, t).runs ==> HasJob(s, t, r))
    && (forall r :: r in ThreadAt(s, t).runs && r != l ==> Coupled(s, t, r))
  }

  ghost predicate Finished(s: Store, t: Id, l: Id) {
    && Mid(s, t, l)
    && t in s.threads && l in ThreadAt(s, t).runs
    && Mirrors(ThreadAt(s, t), RunAt(ThreadAt(s, t), l).state) && Coupled(s, t, l)
  }

  lemma Enter(s: Store, t: Id) returns (l: Id)
    requires AgreeInv(s) && t in s.threads
    ensures Finished(s, t, l)
    ensures l in ThreadAt(s, t).runs && Coupled(s, t, l) && Mirrors(ThreadAt(s, t), RunAt(ThreadAt(s, t), l).state)
  {
    hide Skeleton, Led, Matches, Mirrors;
    assert AgreesOn(s, t);
    l :| Shaped(s.threads[t], l);
    assert l in s.threads[t].runs by { LedIsRun(s.threads[t], l); }
    assert Coupled(s, t, l);
  }

  lemma LedIsRun(p: ThreadProjection, l: Id)
    requires Led(p, l)
    ensures l in p.runs
  {
  }

  lemma Leave(s: Store, t: Id, l: Id)
    requires Finished(s, t, l)
    ensures AgreeInv(s)
  {
    hide Skeleton, Led, Matches, Mirrors;
    assert Shaped(s.threads[t], l);
    forall x | x in s.threads
      ensures AgreesOn(s, x)
    {
    }
  }

  /** What an accepted Thread event does to the store, exactly. */
  lemma EmitMoves(s: Store, t: Id, origin: Origin, change: ThreadEvent)
    requires OpenInv(s) && t in s.threads && !change.ThreadCreated?
    requires Emit(s, t, origin, change).Ok?
    ensures var u := Committed(s, Emit(s, t, origin, change));
      && t in u.threads && u == s.(journal := u.journal, threads := s.threads[t := ThreadAt(u, t)])
      && Moves(ThreadAt(s, t), change, ThreadAt(u, t))
      && ThreadAt(u, t).threadId == ThreadAt(s, t).threadId && ThreadAt(u, t).projectId == ThreadAt(s, t).projectId
      && OpenInv(u)
  {
    var u := Emit(s, t, origin, change).value;
    var event := Envelope(s.journal, ThreadDraft(t, origin, change));
    EmitSound(s, t, origin, change);
    hide SchedulerInv, RowsAdvance, ActionsInv, ResourcesInv, Advance, ReduceExisting;
    assert Replay(s.journal, t) == Ok(Some(s.threads[t]));
    RevisionCountsEvents(s.journal, t);
    LastSequenceIsCount(s.journal, ThreadStream(t));
    assert event.sequence == s.threads[t].revision + 1;
    assert ReduceExisting(s.threads[t], event, change) == Ok(u.threads[t]);
  }

  /** Work on t's newest Run keeps the rest in agreement. */
  lemma RestAgrees(s: Store, u: Store, t: Id, q: ThreadProjection)
    requires JobsOwned(s) && t in s.threads
    requires u.jobs == s.jobs && u.threads == s.threads[t := q] && q.runs.Keys >= ThreadAt(s, t).runs.Keys
    requires forall x :: x in s.threads && x != t ==> AgreesOn(s, x)
    ensures JobsOwned(u)
    ensures forall x :: x in u.threads && x != t ==> AgreesOn(u, x)
  {
    hide ThreadOK, Matches;
    forall x | x in u.threads && x != t
      ensures AgreesOn(u, x)
    {
      assert AgreesOn(s, x);
      forall r | r in u.threads[x].runs
        ensures Coupled(u, x, r)
      {
        assert Coupled(s, x, r);
      }
    }
  }

  /** Events about the newest Run, or about no Run at all. */
  predicate About(change: ThreadEvent, l: Id) {
    && KeepsFrame(change)
    && (change.RunStateChanged? ==> change.runId == l)
    && (change.CheckpointRecorded? ==> change.runId == l)
  }

  lemma OnlyNewestMoves(p: ThreadProjection, change: ThreadEvent, l: Id, q: ThreadProjection)
    requires About(change, l) && Moves(p, change, q)
    ensures forall r :: r in p.runs && r != l ==> r in q.runs && RunAt(q, r) == RunAt(p, r)
  {
    hide ThreadTransitions;
  }

  lemma EmitMid(s: Store, t: Id, l: Id, origin: Origin, change: ThreadEvent)
    requires OpenInv(s) && Mid(s, t, l) && About(change, l)
    requires Emit(s, t, origin, change).Ok?
    ensures var u := Committed(s, Emit(s, t, origin, change));
      && OpenInv(u) && Mid(u, t, l) && t in u.threads && l in ThreadAt(u, t).runs && HasJob(u, t, l)
      && Moves(ThreadAt(s, t), change, ThreadAt(u, t))
      && u.jobs == s.jobs && SameFrame(ThreadAt(s, t), ThreadAt(u, t))
      && u == s.(journal := u.journal, threads := s.threads[t := ThreadAt(u, t)])
  {
    hide OpenInv, Moves, Skeleton, Matches, Emit, AgreesOn;
    EmitMoves(s, t, origin, change);
    var u := Emit(s, t, origin, change).value;
    FrameKeepsSkeleton(s.threads[t], change, u.threads[t]);
    OnlyNewestMoves(s.threads[t], change, l, u.threads[t]);
    FrameKeepsLed(s.threads[t], u.threads[t], l);
    RestAgrees(s, u, t, u.threads[t]);
    assert l in s.threads[t].runs;
    forall r | r in u.threads[t].runs
      ensures HasJob(u, t, r) && (r != l ==> Coupled(u, t, r))
    {
      assert HasJob(s, t, r) && (r != l ==> Coupled(s, t, r));
    }
  }

  /** Rewriting the newest Run's own job row. */
  lemma JobHere(s: Store, u: Store, t: Id, l: Id, job: SchedulerJob, r: Id)
    requires l in s.jobs && HasJob(s, t, r) && (r != l ==> Coupled(s, t, r))
    requires u.threads == s.threads && u.jobs == s.jobs[l := job]
    requires job.threadId == JobAt(s, l).threadId && job.executorKey == JobAt(s, l).executorKey
    ensures HasJob(u, t, r) && (r != l ==> Coupled(u, t, r)) && JobAt(s, r).threadId == t
  {
    hide Matches;
  }

  lemma JobMid(s: Store, u: Store, t: Id, l: Id, job: SchedulerJob)
    requires Mid(s, t, l) && l in s.jobs
    requires u.threads == s.threads && u.jobs == s.jobs[l := job]
    requires job.threadId == JobAt(s, l).threadId && job.executorKey == JobAt(s, l).executorKey
    ensures Mid(u, t, l)
  {
    hide Skeleton, Led, AgreesOn, Coupled, HasJob;
    assert l in s.threads[t].runs by { LedIsRun(s.threads[t], l); }
    assert HasJob(s, t, l);
    JobHere(s, u, t, l, job, l);
    forall x | x in u.threads && x != t
      ensures AgreesOn(u, x)
    {
      assert AgreesOn(s, x);
      JobElsewhere(s, u, l, job, x);
    }
    forall r | r in u.threads[t].runs
      ensures HasJob(u, t, r) && (r != l ==> Coupled(u, t, r))
    {
      assert HasJob(s, t, r) && (r != l ==> Coupled(s, t, r));
      JobHere(s, u, t, l, job, r);
    }
  }

  lemma JobElsewhere(s: Store, u: Store, l: Id, job: SchedulerJob, x: Id)
    requires x in s.threads && AgreesOn(s, x) && l in s.jobs && JobAt(s, l).threadId != x
    requires u.threads == s.threads && u.jobs == s.jobs[l := job]
    ensures AgreesOn(u, x)
  {
    hide Matches, ThreadOK;
    forall r | r in u.threads[x].runs
      ensures Coupled(u, x, r)
    {
      assert Coupled(s, x, r);
    }
  }

  /** Nothing about Threads or jobs changed. */
  lemma SameRowsMid(s: Store, u: Store, t: Id, l: Id)
    requires Mid(s, t, l) && u.threads == s.threads && u.jobs == s.jobs
    ensures Mid(u, t, l)
  {
    hide Skeleton, Led, Matches, ThreadOK;
    forall x | x in u.threads && x != t
      ensures AgreesOn(u, x)
    {
      assert AgreesOn(s, x);
      forall r | r in u.threads[x].runs
        ensures Coupled(u, x, r)
      {
        assert Coupled(s, x, r);
      }
    }
    forall r | r in u.threads[t].runs
      ensures HasJob(u, t, r) && (r != l ==> Coupled(u, t, r))
    {
      assert HasJob(s, t, r) && (r != l ==> Coupled(s, t, r));
    }
  }

  // ---------------------------------------------------------------- scheduler rows

  lemma OwnedRun(s: Store, r: Id)
    requires AgreeInv(s) && r in s.jobs
    ensures JobAt(s, r).threadId in s.threads && r in ThreadAt(s, JobAt(s, r).threadId).runs
    ensures Coupled(s, JobAt(s, r).threadId, r)
  {
    hide ThreadOK, Matches;
    assert AgreesOn(s, s.jobs[r].threadId);
  }

  /** Rewriting one job row in agreement with its Run. */
  lemma RowAgrees(s: Store, u: Store, r: Id, job: SchedulerJob)
    requires AgreeInv(s) && r in s.jobs
    requires u.threads == s.threads && u.jobs == s.jobs[r := job]
    requires job.threadId == JobAt(s, r).threadId && job.executorKey == JobAt(s, r).executorKey
    requires
      var t := JobAt(s, r).threadId;
      t in s.threads && r in ThreadAt(s, t).runs && Matches(RunAt(ThreadAt(s, t), r).state, job)
    ensures AgreeInv(u)
  {
    hide ThreadOK, Matches, AgreesOn;
    assert JobsOwned(u);
    forall x | x in u.threads
      ensures AgreesOn(u, x)
    {
      RowAgreesOn(s, u, r, job, x);
    }
  }

  lemma RowAgreesOn(s: Store, u: Store, r: Id, job: SchedulerJob, x: Id)
    requires x in s.threads && AgreesOn(s, x) && r in s.jobs
    requires u.threads == s.threads && u.jobs == s.jobs[r := job]
    requires job.threadId == JobAt(s, r).threadId && job.executorKey == JobAt(s, r).executorKey
    requires job.threadId == x && r in ThreadAt(s, x).runs ==> Matches(RunAt(ThreadAt(s, x), r).state, job)
    ensures AgreesOn(u, x)
  {
    hide ThreadOK, Matches;
    forall y | y in u.threads[x].runs
      ensures Coupled(u, x, y)
    {
      assert Coupled(s, x, y);
    }
  }

  lemma SameRowsAgree(s: Store, u: Store)
    requires AgreeInv(s) && u.threads == s.threads && u.jobs == s.jobs
    ensures AgreeInv(u)
  {
    hide ThreadOK, Matches;
    forall x | x in u.threads
      ensures AgreesOn(u, x)
    {
      assert AgreesOn(s, x);
      forall y | y in u.threads[x].runs
        ensures Coupled(u, x, y)
      {
        assert Coupled(s, x, y);
      }
    }
  }

  lemma {:induction false} SweepAgrees(s: Store, now: Time, rows: seq<Id>)
    requires AgreeInv(s)
    ensures AgreeInv(Sweep(s, now, rows)) && Sweep(s, now, rows).threads == s.threads
    decreases |rows|
  {
    hide AgreeInv;
    if rows != [] {
      SweepAgrees(s, now, rows[..|rows| - 1]);
      var rest := Sweep(s, now, rows[..|rows| - 1]);
      var r := rows[|rows| - 1];
      if Exhausted(rest, r, now) {
        OwnedRun(rest, r);
        RowAgrees(rest, FailExhausted(rest, r, now), r, FailExhausted(rest, r, now).jobs[r]);
      }
    }
  }

  lemma ClaimNextAgrees(
    s: Store, worker: string, leaseId: string, seconds: int, keys: Option<set<string>>, rows: seq<Id>,
    pick: Option<Id>, now: Time)
    requires AgreeInv(s) && Picks(Sweep(s, now, rows), now, keys, pick)
    requires ClaimNextRun(s, worker, leaseId, seconds, keys, rows, pick, now).Ok?
    ensures var u := ClaimedStore(s, ClaimNextRun(s, worker, leaseId, seconds, keys, rows, pick, now));
      AgreeInv(u) && u.threads == s.threads
  {
    hide AgreeInv, Sweep;
    if keys != Some({}) {
      SweepAgrees(s, now, rows);
      var swept := Sweep(s, now, rows);
      if pick.Some? {
        var t := TakeClaim(swept, pick.value, worker, leaseId, now + seconds, now);
        OwnedRun(swept, pick.value);
        RowAgrees(swept, t, pick.value, t.jobs[pick.value]);
      }
    }
  }

  // ---------------------------------------------------------------- execution under a claim

  /** A live claim is on the newest Run of its Thread, which is queued or running. */
  lemma LiveMeansNewest(s: Store, claim: WorkerClaim, now: Time, l: Id)
    requires Live(s, claim, now) && Finished(s, claim.threadId, l)
    requires claim.runId in ThreadAt(s, claim.threadId).runs
    ensures claim.runId == l
    ensures RunAt(ThreadAt(s, claim.threadId), l).state.Queued? || RunAt(ThreadAt(s, claim.threadId), l).state.Running?
  {
    hide Skeleton, ThreadOK;
    assert Coupled(s, claim.threadId, claim.runId);
  }

  lemma StartAgrees(s: Store, claim: WorkerClaim, now: Time)
    requires OpenInv(s) && AgreeInv(s) && StartClaimedRun(s, claim, now).Ok?
    ensures AgreeInv(Committed(s, StartClaimedRun(s, claim, now)))
  {
    hide OpenInv, AgreeInv, Mid, Moves, Emit, Skeleton;
    var t := claim.threadId;
    var l := Enter(s, t);
    LiveMeansNewest(s, claim, now, l);
    var p := s.threads[t];
    var origin := Origin(claim.worker, now, None);
    var awake := s;
    if !p.actual.Running? {
      awake := WakeMid(s, t, l, origin);
    }
    if !p.runs[l].state.Running? {
      RunMid(awake, t, l, origin);
    } else {
      Leave(awake, t, l);
    }
  }

  lemma WakeMid(s: Store, t: Id, l: Id, origin: Origin) returns (u: Store)
    requires OpenInv(s) && Finished(s, t, l)
    requires Emit(s, t, origin, ThreadStateChanged(ThreadAt(s, t).actual, ThreadState.Running, [])).Ok?
    ensures Emit(s, t, origin, ThreadStateChanged(ThreadAt(s, t).actual, ThreadState.Running, [])) == Ok(u)
    ensures OpenInv(u) && Mid(u, t, l) && u.jobs == s.jobs && t in u.threads && l in ThreadAt(u, t).runs
    ensures ThreadAt(u, t).runs == ThreadAt(s, t).runs && ThreadAt(u, t).actual.Running?
    ensures ThreadAt(u, t).desired == ThreadAt(s, t).desired
  {
    hide OpenInv, Mid, Moves, Emit, Skeleton, ThreadTransitions, SameFrame;
    var change := ThreadStateChanged(s.threads[t].actual, ThreadState.Running, []);
    EmitMid(s, t, l, origin, change);
    u := Emit(s, t, origin, change).value;
    MovedThread(s.threads[t], s.threads[t].actual, ThreadState.Running, [], u.threads[t]);
  }

  lemma RunMid(s: Store, t: Id, l: Id, origin: Origin)
    requires OpenInv(s) && Mid(s, t, l) && t in s.threads && l in ThreadAt(s, t).runs && l in s.jobs
    requires ThreadAt(s, t).actual.Running? && ThreadAt(s, t).desired.Run? && JobAt(s, l).state.Claimed?
    requires Emit(
      s, t, origin, RunStateChanged(l, RunAt(ThreadAt(s, t), l).state, RunState.Running, [], None, None)).Ok?
    ensures AgreeInv(
      Committed(s, Emit(
        s, t, origin, RunStateChanged(l, RunAt(ThreadAt(s, t), l).state, RunState.Running, [], None, None))))
  {
    hide OpenInv, Mid, Moves, Emit, Skeleton, AgreeInv, ClaimNextRun, RunTransitions, SameFrame, Terminal;
    var change := RunStateChanged(l, s.threads[t].runs[l].state, RunState.Running, [], None, None);
    var u := Emit(s, t, origin, change).value;
    EmitMid(s, t, l, origin, change);
    MovedRun(s.threads[t], l, s.threads[t].runs[l].state, RunState.Running, [], None, None, u.threads[t]);
    Leave(u, t, l);
  }

  lemma CheckpointAgrees(s: Store, claim: WorkerClaim, checkpoint: Artifact, now: Time)
    requires OpenInv(s) && AgreeInv(s) && RecordClaimedCheckpoint(s, claim, checkpoint, now).Ok?
    ensures AgreeInv(Committed(s, RecordClaimedCheckpoint(s, claim, checkpoint, now)))
  {
    hide OpenInv, AgreeInv, Mid, Emit, Skeleton, ClaimNextRun, SameFrame;
    var t, r := claim.threadId, claim.runId;
    var l := Enter(s, t);
    LiveMeansNewest(s, claim, now, l);
    var number := s.threads[t].runs[r].checkpointSequence + 1;
    var u := RecordClaimedCheckpoint(s, claim, checkpoint, now).value;
    EmitMid(s, t, l, Origin(claim.worker, now, None), CheckpointRecorded(r, checkpoint, number));
    var p, q := s.threads[t], u.threads[t];
    assert q.actual == p.actual && q.desired == p.desired && q.latestDelivery == p.latestDelivery;
    assert r in p.runs && r in q.runs && q.runs == p.runs[r := RunAt(q, r)];
    assert RunAt(q, r).state == RunAt(p, r).state && RunAt(q, r).output == RunAt(p, r).output;
    Leave(u, t, l);
  }

  /** The three Thread events of a settlement leave the newest Run ended or queued again. */
  lemma SettleThreadMid(
    s: Store, claim: WorkerClaim, l: Id, how: Settlement, output: Option<Artifact>, error: Option<string>,
        origin: Origin)
    requires OpenInv(s) && Mid(s, claim.threadId, l) && claim.runId == l
    requires claim.threadId in s.threads && l in ThreadAt(s, claim.threadId).runs
    requires SettleThread(s, claim, how, output, error, origin).Ok?
    ensures var u := Committed(s, SettleThread(s, claim, how, output, error, origin)); var t := claim.threadId;
      && Mid(u, t, l) && u.jobs == s.jobs
      && t in u.threads && l in ThreadAt(u, t).runs && RunAt(ThreadAt(u, t), l).state == RunTarget(how)
      && ThreadAt(u, t).actual == ThreadTarget(how) && ThreadAt(u, t).desired == ThreadAt(s, t).desired
  {
    hide OpenInv, Mid, Moves, Emit, Skeleton, SameFrame, RunTarget, ThreadTarget, RunTransitions, ThreadTransitions;
    var t, p := claim.threadId, s.threads[claim.threadId];
    var from := p.runs[l].state;
    var first := RunStateChanged(l, from, RunTarget(how), [], Some(output), error);
    var second := ThreadStateChanged(p.actual, ThreadTarget(how), []);
    var a := Emit(s, t, origin, first).value;
    EmitMid(s, t, l, origin, first);
    MovedRun(p, l, from, RunTarget(how), [], Some(output), error, a.threads[t]);
    var b := Emit(a, t, origin, second).value;
    EmitMid(a, t, l, origin, second);
    MovedThread(a.threads[t], p.actual, ThreadTarget(how), [], b.threads[t]);
    if how.GiveUp? && !p.attention.Failed? {
      AttentionMid(b, t, l, origin, AttentionState.Failed);
    }
  }

  lemma AttentionMid(s: Store, t: Id, l: Id, origin: Origin, attention: AttentionState)
    requires OpenInv(s) && Mid(s, t, l) && t in s.threads && l in ThreadAt(s, t).runs
    requires Emit(s, t, origin, AttentionChanged(attention)).Ok?
    ensures var u := Committed(s, Emit(s, t, origin, AttentionChanged(attention)));
      && OpenInv(u) && Mid(u, t, l) && t in u.threads && u.jobs == s.jobs
      && ThreadAt(u, t).runs == ThreadAt(s, t).runs && ThreadAt(u, t).actual == ThreadAt(s, t).actual
      && ThreadAt(u, t).desired == ThreadAt(s, t).desired
      && ThreadAt(u, t).latestDelivery == ThreadAt(s, t).latestDelivery
  {
    hide OpenInv, Mid, Emit, Skeleton, SameFrame;
    EmitMid(s, t, l, origin, AttentionChanged(attention));
  }

  lemma FinishExecutionAgrees(
    s: Store, claim: WorkerClaim, executorKey: string, version: string, outcome: Outcome, now: Time)
    requires OpenInv(s) && AgreeInv(s)
    requires FinishClaimedExecution(s, claim, executorKey, version, outcome, now).Ok?
    ensures AgreeInv(Committed(s, FinishClaimedExecution(s, claim, executorKey, version, outcome, now)))
  {
    hide OpenInv, AgreeInv, Mid, Skeleton, SettleThread, SettleJob, NonBlank, LastErrorOf, ErrorOf, RunTarget,
        ThreadTarget;
    var t := claim.threadId;
    var l := Enter(s, t);
    LiveMeansNewest(s, claim, now, l);
    var how := SettlementOf(outcome, s.jobs[l], now);
    var origin := Origin(claim.worker, now, None);
    var ended := SettleThread(s, claim, how, OutputOf(outcome), ErrorOf(outcome), origin).value;
    SettleThreadMid(s, claim, l, how, OutputOf(outcome), ErrorOf(outcome), origin);
    SettledAgrees(ended, t, l, how, LastErrorOf(outcome), origin);
  }

  lemma SettledAgrees(s: Store, t: Id, l: Id, how: Settlement, errorText: Option<string>, origin: Origin)
    requires Mid(s, t, l) && l in s.jobs && t in s.threads && l in ThreadAt(s, t).runs
    requires RunAt(ThreadAt(s, t), l).state == RunTarget(how) && ThreadAt(s, t).desired.Run?
    requires ThreadAt(s, t).actual == ThreadTarget(how) || (how.Done? && ThreadAt(s, t).actual.Delivered?)
    ensures AgreeInv(SettleJob(s, l, how, errorText, origin))
  {
    hide Mid, AgreeInv, Skeleton, ClaimNextRun, Insert;
    var u := SettleJob(s, l, how, errorText, origin);
    MidHasJob(s, t, l);
    JobMid(s, u, t, l, u.jobs[l]);
    Leave(u, t, l);
  }

  lemma MidHasJob(s: Store, t: Id, l: Id)
    requires Mid(s, t, l)
    ensures t in s.threads && l in ThreadAt(s, t).runs && HasJob(s, t, l)
  {
    hide Skeleton, ThreadOK, Matches;
  }

  // =========================================================================== work
  // Agreement through the transactions that submit, bind and deliver work.

  // ---------------------------------------------------------------- delivery

  lemma CloseThreadMid(s: Store, claim: WorkerClaim, l: Id, delivery: Id, primary: Artifact, origin: Origin)
    requires OpenInv(s) && Mid(s, claim.threadId, l) && claim.runId == l
    requires claim.threadId in s.threads && l in ThreadAt(s, claim.threadId).runs
    requires CloseThread(s, claim, delivery, primary, origin).Ok?
    ensures var u := Committed(s, CloseThread(s, claim, delivery, primary, origin)); var t := claim.threadId;
      && OpenInv(u) && Mid(u, t, l) && u.jobs == s.jobs
      && t in u.threads && l in ThreadAt(u, t).runs && RunAt(ThreadAt(u, t), l).state.Completed?
      && ThreadAt(u, t).actual.Delivered? && ThreadAt(u, t).desired == ThreadAt(s, t).desired
      && RunAt(ThreadAt(u, t), l).output == Some(primary) && ThreadAt(u, t).latestDelivery == Some(delivery)
  {
    hide OpenInv, Mid, Moves, Emit, Skeleton, SameFrame, RunTransitions, Terminal, ThreadTransitions;
    var t := claim.threadId;
    var change := RunStateChanged(l, RunState.Running, RunState.Completed, [], Some(Some(primary)), None);
    var moved := ThreadStateChanged(s.threads[t].actual, ThreadState.Delivered, []);
    EmitMid(s, t, l, origin, DeliveryRecorded(delivery));
    var a := Emit(s, t, origin, DeliveryRecorded(delivery)).value;
    MovedAside(s.threads[t], DeliveryRecorded(delivery), a.threads[t]);
    EmitMid(a, t, l, origin, change);
    var b := Emit(a, t, origin, change).value;
    MovedRun(a.threads[t], l, RunState.Running, RunState.Completed, [], Some(Some(primary)), None, b.threads[t]);
    EmitMid(b, t, l, origin, moved);
    var c := Emit(b, t, origin, moved).value;
    MovedThread(b.threads[t], s.threads[t].actual, ThreadState.Delivered, [], c.threads[t]);
    AttentionMid(c, t, l, origin, AttentionState.DeliveryReady);
  }

  lemma FinalizeAgrees(
    s: Store, claim: WorkerClaim, executorKey: string, primary: Artifact, report: Artifact, summary: Artifact,
    supporting: seq<Artifact>, now: Time)
    requires OpenInv(s) && AgreeInv(s)
    requires FinalizeDelivery(s, claim, executorKey, primary, report, summary, supporting, now).Ok?
    ensures AgreeInv(Committed(s, FinalizeDelivery(s, claim, executorKey, primary, report, summary, supporting, now)))
  {
    hide OpenInv, AgreeInv, Mid, Skeleton, CloseThread, SettleJob, Log, DeliveryClashes, NextDelivery, Sound,
      Confined, Advance, ClaimNextRun, Coupled;
    var t := claim.threadId;
    var l := Enter(s, t);
    LiveMeansNewest(s, claim, now, l);
    var row := NextDelivery(s, claim, primary, report, summary, supporting, now);
    var origin := Origin(claim.worker, now, None);
    var prepared := Log(s, DeliveryStream(row.deliveryId), Some(t), origin, DeliveryPrepared(row.version));
    LogSound(s, DeliveryStream(row.deliveryId), Some(t), origin, DeliveryPrepared(row.version));
    SoundKeepsOpen(s, prepared);
    LogKeepsTables(s, DeliveryStream(row.deliveryId), Some(t), origin, DeliveryPrepared(row.version));
    SameRowsMid(s, prepared, t, l);
    var closed := CloseThread(prepared, claim, row.deliveryId, primary, origin).value;
    CloseThreadMid(prepared, claim, l, row.deliveryId, primary, origin);
    SettledAgrees(closed, t, l, Done, None, origin);
    var settled := SettleJob(closed, l, Done, None, origin);
    var u := FinalizeDelivery(s, claim, executorKey, primary, report, summary, supporting, now).value;
    LogKeepsTables(settled, DeliveryStream(row.deliveryId), Some(t), Origin("outbox", now, None),
                   DeliveryNotified(OutboxOf(row.deliveryId)));
    SameRowsAgree(settled, u);
  }

  lemma SoundKeepsOpen(s: Store, t: Store)
    requires Sound(s, t) && OpenInv(s)
    ensures OpenInv(t) && Advance(s, t)
  {
    hide Advance, OpenInv;
  }

  // ---------------------------------------------------------------- binding inputs late

  /** Inputs a caller has stored through the snapshot store. */
  predicate StoredInputs(task: Artifact, context: Artifact) {
    task.TaskArtifact? && context.ContextArtifact? && Increasing(context.manifest.items)
  }

  lemma BindShape(
    p: ThreadProjection, l: Id, r: Id, task: Artifact, agent: Artifact, context: Artifact, q: ThreadProjection)
    requires Shaped(p, l) && StoredInputs(task, context)
    requires Moves(p, SnapshotsBound(r, task, agent, context), q)
    ensures Shaped(q, l) && q.runs.Keys == p.runs.Keys
    ensures forall x :: x in p.runs ==>
      RunAt(q, x).state == RunAt(p, x).state && RunAt(q, x).executorKey == RunAt(p, x).executorKey
  {
    hide Skeleton, Moves, Latest;
    BoundTo(p, r, task, agent, context, q);
    assert r == l;
    BoundKeepsSkeleton(p, l, task, agent, context, q);
  }

  lemma AgreedShape(s: Store, t: Id) returns (l: Id)
    requires AgreesOn(s, t) && ThreadAt(s, t).runs != map[]
    ensures Shaped(ThreadAt(s, t), l) && ThreadAt(s, t).threadId == t
    ensures forall r :: r in ThreadAt(s, t).runs ==> Coupled(s, t, r)
  {
    hide Shaped, Coupled;
    l :| Shaped(s.threads[t], l);
  }

  lemma BindAgrees(
    s: Store, t: Id, r: Id, task: Artifact, agent: Artifact, context: Artifact, expectedRevision: nat, origin: Origin)
    requires OpenInv(s) && AgreeInv(s) && StoredInputs(task, context)
    requires BindRunSnapshots(s, t, r, task, agent, context, expectedRevision, origin).Ok?
    ensures AgreeInv(Committed(s, BindRunSnapshots(s, t, r, task, agent, context, expectedRevision, origin)))
  {
    hide OpenInv, Emit, StoredInputs, AgreesOn, Shaped, Moves, Matches;
    var u := BindRunSnapshots(s, t, r, task, agent, context, expectedRevision, origin).value;
    assert AgreesOn(s, t);
    var l := AgreedShape(s, t);
    EmitMoves(s, t, origin, SnapshotsBound(r, task, agent, context));
    BindShape(s.threads[t], l, r, task, agent, context, u.threads[t]);
    RestAgrees(s, u, t, u.threads[t]);
    forall x | x in u.threads[t].runs
      ensures Coupled(u, t, x)
    {
      assert Coupled(s, t, x);
    }
    ReassembleThread(u, t, l);
  }

  lemma ReassembleThread(u: Store, t: Id, l: Id)
    requires t in u.threads && ThreadAt(u, t).threadId == t && Shaped(ThreadAt(u, t), l)
    requires forall x :: x in ThreadAt(u, t).runs ==> Coupled(u, t, x)
    ensures AgreesOn(u, t)
  {
    hide Shaped;
  }

  // ---------------------------------------------------------------- a new Run

  /** Adding a Run with its fresh queued job to a Thread whose other Runs are in agreement. */
  lemma NewRunAgrees(s: Store, u: Store, t: Id, r: Id, job: SchedulerJob)
    requires JobsOwned(s)
    requires forall x :: x in s.threads && x != t ==> AgreesOn(s, x)
    requires t in s.threads ==> forall y :: y in ThreadAt(s, t).runs ==> Coupled(s, t, y)
    requires t in u.threads && u.threads == s.threads[t := ThreadAt(u, t)]
    requires r !in s.jobs && u.jobs == s.jobs[r := job] && job.threadId == t && job.state.Queued?
    requires var q := ThreadAt(u, t);
      && q.threadId == t && Shaped(q, r)
      && r in q.runs && RunAt(q, r).state.Queued? && RunAt(q, r).executorKey == job.executorKey
      && (forall y :: y in q.runs && y != r ==>
            t in s.threads && y in ThreadAt(s, t).runs && RunAt(q, y) == RunAt(ThreadAt(s, t), y))
      && (t in s.threads ==> ThreadAt(s, t).runs.Keys <= q.runs.Keys)
    ensures AgreeInv(u)
  {
    hide Shaped, Coupled;
    forall x | x in u.threads
      ensures AgreesOn(u, x)
    {
      if x != t {
        NewJobElsewhere(s, u, r, job, x);
      } else {
        NewJobHere(s, u, t, r, job);
      }
    }
  }

  lemma NewJobElsewhere(s: Store, u: Store, r: Id, job: SchedulerJob, x: Id)
    requires x in s.threads && AgreesOn(s, x) && r !in s.jobs && u.jobs == s.jobs[r := job]
    requires x in u.threads && ThreadAt(u, x) == ThreadAt(s, x)
    ensures AgreesOn(u, x)
  {
    hide ThreadOK, Matches;
    forall y | y in u.threads[x].runs
      ensures Coupled(u, x, y)
    {
      assert Coupled(s, x, y);
    }
  }

  lemma NewJobHere(s: Store, u: Store, t: Id, r: Id, job: SchedulerJob)
    requires t in u.threads && r !in s.jobs && u.jobs == s.jobs[r := job] && job.threadId == t && job.state.Queued?
    requires t in s.threads ==> forall y :: y in ThreadAt(s, t).runs ==> Coupled(s, t, y)
    requires var q := ThreadAt(u, t);
      && q.threadId == t && Shaped(q, r)
      && r in q.runs && RunAt(q, r).state.Queued? && RunAt(q, r).executorKey == job.executorKey
      && (forall y :: y in q.runs && y != r ==>
            t in s.threads && y in ThreadAt(s, t).runs && RunAt(q, y) == RunAt(ThreadAt(s, t), y))
    ensures AgreesOn(u, t)
  {
    hide Shaped;
    forall y | y in u.threads[t].runs
      ensures Coupled(u, t, y)
    {
      if y != r {
        assert Coupled(s, t, y);
      }
    }
  }

  // ---------------------------------------------------------------- submission

  /** A direct submission names its own ids and has stored its inputs, if it has any. */
  predicate FitSubmission(sub: TaskSubmission) {
    && !sub.runId.UpdateRunOf? && !sub.branchId.BranchOf?
    && (sub.task.Some? && sub.context.Some? ==> StoredInputs(sub.task.value, sub.context.value))
  }

  /** The Thread as ThreadCreated leaves it. */
  lemma FirstEvent(s: Store, t: Id, draft: Draft, project: string, title: string, branch: Id)
    requires OpenInv(s) && t !in s.threads && !branch.BranchOf? && draft.stream == ThreadStream(t)
    requires draft.body == OfThread(ThreadCreated(project, title, DesiredState.Run, branch))
    requires EmitDraft(s, t, draft).Ok?
    ensures var u := Committed(s, EmitDraft(s, t, draft));
      && OpenInv(u) && t in u.threads && u == s.(journal := u.journal, threads := s.threads[t := ThreadAt(u, t)])
      && ThreadAt(u, t).threadId == t && Cleared(ThreadAt(u, t), None) && ThreadAt(u, t).actual.Created?
      && ThreadAt(u, t).currentBranch == branch && ThreadAt(u, t).runs == map[]
      && ThreadAt(u, t).latestDelivery == None && ThreadAt(u, t).updates == []
  {
    hide OpenInv, Sound, Confined, Insert, Advance, ReduceExisting;
    EmitDraftSound(s, t, draft);
    SoundKeepsOpen(s, EmitDraft(s, t, draft).value);
    assert Envelope(s.journal, draft).body == draft.body && Envelope(s.journal, draft).stream == draft.stream;
  }

  /** A later event of the same batch. */
  lemma NextEvent(s: Store, t: Id, origin: Origin, change: ThreadEvent)
    requires OpenInv(s) && t in s.threads && ThreadAt(s, t).threadId == t && !change.ThreadCreated?
    requires EmitDraft(s, t, ThreadDraft(t, origin, change)).Ok?
    ensures var u := Committed(s, EmitDraft(s, t, ThreadDraft(t, origin, change)));
      && OpenInv(u) && t in u.threads && u == s.(journal := u.journal, threads := s.threads[t := ThreadAt(u, t)])
      && Moves(ThreadAt(s, t), change, ThreadAt(u, t)) && ThreadAt(u, t).threadId == t
  {
    hide OpenInv, Moves, EmitDraft;
    EmitMoves(s, t, origin, change);
  }

  lemma DraftsSnoc(s: Store, t: Id, drafts: seq<Draft>, last: Draft)
    ensures EmitDrafts(s, t, drafts + [last])
      == if EmitDrafts(s, t, drafts).Ok? then EmitDraft(Committed(s, EmitDrafts(s, t, drafts)), t, last)
         else EmitDrafts(s, t, drafts)
  {
    hide EmitDraft;
    assert (drafts + [last])[..|drafts|] == drafts;
  }

  /** A Thread with its one Run created and perhaps bound, ready to be queued. */
  ghost predicate Drafted(q: ThreadProjection, r: Id, key: string) {
    && Skeleton(q) && Latest(q, r) && q.runs == map[r := RunAt(q, r)]
    && RunAt(q, r).state.Created? && RunAt(q, r).branchId == q.currentBranch && RunAt(q, r).supersedes.None?
    && RunAt(q, r).executorKey == key
    && q.actual.Created? && q.desired.Run? && q.latestDelivery.None?
  }

  /** Where the first drafts of a submission lead from a store without the Thread. */
  ghost predicate Opened(s: Store, sub: TaskSubmission, drafts: seq<Draft>, u: Store) {
    && EmitDrafts(s, sub.threadId, drafts) == Ok(u)
    && OpenInv(u) && sub.threadId in u.threads && ThreadAt(u, sub.threadId).threadId == sub.threadId
    && u == s.(journal := u.journal, threads := s.threads[sub.threadId := ThreadAt(u, sub.threadId)])
    && Drafted(ThreadAt(u, sub.threadId), sub.runId, sub.executorKey)
  }

  /** The store after the first two events of a submission. */
  lemma SubmissionOpens(s: Store, sub: TaskSubmission, now: Time) returns (u: Store)
    requires OpenInv(s) && sub.threadId !in s.threads && FitSubmission(sub) && NonBlank(sub.executorKey)
    requires EmitDrafts(s, sub.threadId, SubmissionDrafts(sub, now)[..2]).Ok?
    ensures Opened(s, sub, SubmissionDrafts(sub, now)[..2], u)
  {
    hide OpenInv, Skeleton, EmitDraft, Moves;
    var t := sub.threadId;
    var owner := Origin(sub.actor, now, sub.correlation);
    var first := ThreadDraft(t, owner, ThreadCreated(sub.projectId, sub.title, DesiredState.Run, sub.branchId));
    var change := RunCreated(sub.runId, sub.branchId, sub.executorKey, None);
    var second := ThreadDraft(t, owner, change);
    assert SubmissionDrafts(sub, now)[..2] == [first] + [second];
    assert [first] == [] + [first];
    DraftsSnoc(s, t, [], first);
    DraftsSnoc(s, t, [first], second);
    var a := EmitDraft(s, t, first).value;
    FirstEvent(s, t, first, sub.projectId, sub.title, sub.branchId);
    u := EmitDraft(a, t, second).value;
    NextEvent(a, t, owner, change);
    CreatedRunIn(a.threads[t], sub.runId, sub.executorKey, u.threads[t]);
  }

  lemma CreatedRunIn(p: ThreadProjection, r: Id, key: string, q: ThreadProjection)
    requires Cleared(p, None) && !r.UpdateRunOf? && NonBlank(key)
    requires Moves(p, RunCreated(r, p.currentBranch, key, None), q)
    ensures Skeleton(q) && Latest(q, r) && Adds(p, r, q) && q.runs == map[r := RunAt(q, r)]
    ensures RunAt(q, r).state.Created? && RunAt(q, r).branchId == q.currentBranch && RunAt(q, r).supersedes.None?
    ensures RunAt(q, r).executorKey == key && q.currentBranch == p.currentBranch
  {
    hide Skeleton, Latest;
    CreatedKeepsSkeleton(p, r, key, None, q);
  }

  lemma BindDrafted(
    p: ThreadProjection, r: Id, key: string, task: Artifact, agent: Artifact, context: Artifact, q: ThreadProjection)
    requires Drafted(p, r, key) && StoredInputs(task, context)
    requires Moves(p, SnapshotsBound(r, task, agent, context), q)
    ensures Drafted(q, r, key)
  {
    hide Skeleton, Moves;
    BoundKeepsSkeleton(p, r, task, agent, context, q);
  }

  /** The two closing events of a submission: the Run is queued and the Thread with it. */
  lemma QueueDrafted(p: ThreadProjection, r: Id, key: string, q: ThreadProjection, u: ThreadProjection)
    requires Drafted(p, r, key)
    requires Moves(p, RunStateChanged(r, RunState.Created, RunState.Queued, [], None, None), q)
    requires Moves(q, ThreadStateChanged(ThreadState.Created, ThreadState.Queued, []), u)
    ensures Shaped(u, r) && u.runs == map[r := RunAt(u, r)] && RunAt(u, r).state.Queued?
      && RunAt(u, r).executorKey == key
    ensures u.latestDelivery.None? && RunAt(u, r).state.Queued?
  {
    hide Skeleton, Moves, Latest, Emit, RunTransitions, ThreadTransitions;
    var first := RunStateChanged(r, RunState.Created, RunState.Queued, [], None, None);
    var second := ThreadStateChanged(ThreadState.Created, ThreadState.Queued, []);
    MovedRun(p, r, RunState.Created, RunState.Queued, [], None, None, q);
    FrameKeepsSkeleton(p, first, q);
    FrameKeepsLinks(p, q);
    SameLineageKeepsLatest(p, q, r);
    MovedThread(q, ThreadState.Created, ThreadState.Queued, [], u);
    FrameKeepsSkeleton(q, second, u);
    FrameKeepsLinks(q, u);
    SameLineageKeepsLatest(q, u, r);
  }

  /** What a whole submission leaves of a store without the Thread. */
  ghost predicate Submitted(s: Store, sub: TaskSubmission, u: Store) {
    && OpenInv(u) && sub.threadId in u.threads
    && u == s.(journal := u.journal, threads := s.threads[sub.threadId := ThreadAt(u, sub.threadId)])
    && var q, r := ThreadAt(u, sub.threadId), sub.runId;
    && q.threadId == sub.threadId && Shaped(q, r) && q.runs == map[r := RunAt(q, r)] && RunAt(q, r).state.Queued?
    && RunAt(q, r).executorKey == sub.executorKey && q.latestDelivery.None?
  }

  function BoundDrafts(sub: TaskSubmission, now: Time): seq<Draft> {
    if sub.task.Some? && sub.agent.Some? && sub.context.Some? then
      [ThreadDraft(sub.threadId, Origin("context-compiler", now, sub.correlation),
                   SnapshotsBound(sub.runId, sub.task.value, sub.agent.value, sub.context.value))]
    else []
  }

  function QueueDraft(sub: TaskSubmission, now: Time): Draft {
    ThreadDraft(sub.threadId, Origin("scheduler", now, sub.correlation),
                RunStateChanged(sub.runId, RunState.Created, RunState.Queued, [], None, None))
  }

  function WakeDraft(sub: TaskSubmission, now: Time): Draft {
    ThreadDraft(sub.threadId, Origin("scheduler", now, sub.correlation),
                ThreadStateChanged(ThreadState.Created, ThreadState.Queued, []))
  }

  lemma SubmissionParts(sub: TaskSubmission, now: Time)
    ensures var drafts := SubmissionDrafts(sub, now);
      drafts == drafts[..2] + BoundDrafts(sub, now) + [QueueDraft(sub, now)] + [WakeDraft(sub, now)]
  {
  }

  lemma SubmissionBinds(s: Store, sub: TaskSubmission, now: Time, opening: seq<Draft>, a: Store) returns (b: Store)
    requires Opened(s, sub, opening, a) && FitSubmission(sub)
    requires EmitDrafts(s, sub.threadId, opening + BoundDrafts(sub, now)).Ok?
    ensures Opened(s, sub, opening + BoundDrafts(sub, now), b)
  {
    hide OpenInv, Moves, EmitDraft, EmitDrafts, Drafted, ThreadDraft;
    if sub.task.Some? && sub.agent.Some? && sub.context.Some? {
      var compiler := Origin("context-compiler", now, sub.correlation);
      var change := SnapshotsBound(sub.runId, sub.task.value, sub.agent.value, sub.context.value);
      DraftsSnoc(s, sub.threadId, opening, ThreadDraft(sub.threadId, compiler, change));
      NextEvent(a, sub.threadId, compiler, change);
      b := EmitDraft(a, sub.threadId, ThreadDraft(sub.threadId, compiler, change)).value;
      BindDrafted(a.threads[sub.threadId], sub.runId, sub.executorKey, sub.task.value, sub.agent.value,
                  sub.context.value, b.threads[sub.threadId]);
    } else {
      assert opening + BoundDrafts(sub, now) == opening;
      b := a;
    }
  }

  lemma SubmissionCloses(s: Store, sub: TaskSubmission, now: Time, opening: seq<Draft>, b: Store)
    requires Opened(s, sub, opening, b)
    requires EmitDrafts(s, sub.threadId, opening + [QueueDraft(sub, now)] + [WakeDraft(sub, now)]).Ok?
    ensures Submitted(
      s, sub,
      Committed(s, EmitDrafts(s, sub.threadId, opening + [QueueDraft(sub, now)] + [WakeDraft(sub, now)])))
  {
    hide OpenInv, Moves, EmitDraft, EmitDrafts, Drafted, Shaped;
    var t, scheduler := sub.threadId, Origin("scheduler", now, sub.correlation);
    var first := RunStateChanged(sub.runId, RunState.Created, RunState.Queued, [], None, None);
    var second := ThreadStateChanged(ThreadState.Created, ThreadState.Queued, []);
    DraftsSnoc(s, t, opening, QueueDraft(sub, now));
    DraftsSnoc(s, t, opening + [QueueDraft(sub, now)], WakeDraft(sub, now));
    NextEvent(b, t, scheduler, first);
    var c := EmitDraft(b, t, QueueDraft(sub, now)).value;
    NextEvent(c, t, scheduler, second);
    var d := EmitDraft(c, t, WakeDraft(sub, now)).value;
    QueueDrafted(b.threads[t], sub.runId, sub.executorKey, c.threads[t], d.threads[t]);
  }

  lemma {:induction false} DraftsPrefixOk(s: Store, t: Id, drafts: seq<Draft>, more: seq<Draft>)
    requires EmitDrafts(s, t, drafts + more).Ok?
    ensures EmitDrafts(s, t, drafts).Ok?
    decreases |more|
  {
    hide EmitDraft;
    if more == [] {
      assert drafts + more == drafts;
    } else {
      var n := |more| - 1;
      assert drafts + more == (drafts + more[..n]) + [more[n]];
      DraftsSnoc(s, t, drafts + more[..n], more[n]);
      DraftsPrefixOk(s, t, drafts, more[..n]);
    }
  }

  lemma SubmissionEmits(s: Store, sub: TaskSubmission, now: Time)
    requires OpenInv(s) && sub.threadId !in s.threads && FitSubmission(sub) && NonBlank(sub.executorKey)
    requires EmitDrafts(s, sub.threadId, SubmissionDrafts(sub, now)).Ok?
    ensures Submitted(s, sub, Committed(s, EmitDrafts(s, sub.threadId, SubmissionDrafts(sub, now))))
  {
    hide OpenInv, Moves, EmitDrafts, Submitted, BoundDrafts, QueueDraft, WakeDraft, Opened, Committed, FitSubmission,
      NonBlank, ThreadDraft;
    assert |SubmissionDrafts(sub, now)| >= 2;
    var two := SubmissionDrafts(sub, now)[..2];
    SubmissionParts(sub, now);
    assert EmitDrafts(s, sub.threadId, two).Ok? && EmitDrafts(s, sub.threadId, two + BoundDrafts(sub, now)).Ok? by {
      var three, closing := two + BoundDrafts(sub, now), [QueueDraft(sub, now)] + [WakeDraft(sub, now)];
      assert three + [QueueDraft(sub, now)] + [WakeDraft(sub, now)] == three + closing;
      DraftsPrefixOk(s, sub.threadId, three, closing);
      DraftsPrefixOk(s, sub.threadId, two, BoundDrafts(sub, now));
    }
    var a := SubmissionOpens(s, sub, now);
    var b := SubmissionBinds(s, sub, now, two, a);
    SubmissionCloses(s, sub, now, two + BoundDrafts(sub, now), b);
  }

  lemma SubmitAgrees(s: Store, sub: TaskSubmission, now: Time)
    requires OpenInv(s) && AgreeInv(s) && FitSubmission(sub)
    requires SubmitTask(s, sub, now).Ok?
    ensures AgreeInv(Committed(s, SubmitTask(s, sub, now)))
  {
    hide OpenInv, EmitDrafts, SubmissionDrafts, SameSubmission, NonBlank, Shaped, FitSubmission, AgreesOn;
    if sub.threadId !in s.threads {
      SubmissionEmits(s, sub, now);
      var created := EmitDrafts(s, sub.threadId, SubmissionDrafts(sub, now)).value;
      var job := NewJob(sub.runId, sub.threadId, sub.priority, now, sub.maxAttempts, sub.executorKey, now);
      var u := InsertJob(created, job, Origin("scheduler", now, sub.correlation)).value;
      NewRunAgrees(s, u, sub.threadId, sub.runId, job);
    }
  }

  // =========================================================================== updates
  // Agreement through Thread updates: cancellation, superseding Runs and branch forks.

  // ---------------------------------------------------------------- cancelling Runs

  /** From p to q Runs were at most cancelled. */
  ghost predicate Held(p: ThreadProjection, q: ThreadProjection) {
    && SameFrame(p, q)
    && q.actual == p.actual && q.desired == p.desired && q.latestDelivery == p.latestDelivery
    && forall r :: r in p.runs ==>
         RunAt(q, r) == RunAt(p, r) || (!Terminal(RunAt(p, r).state) && RunAt(q, r).state.Cancelled?)
  }

  lemma HeldTransitive(p: ThreadProjection, q: ThreadProjection, u: ThreadProjection)
    requires Held(p, q) && Held(q, u)
    ensures Held(p, u)
  {
    forall r | r in p.runs
      ensures u.runs[r] == p.runs[r] || (!Terminal(p.runs[r].state) && u.runs[r].state.Cancelled?)
    {
      assert r in q.runs;
    }
  }

  /** Thread t agrees in every Run, whatever its own state says. */
  ghost predicate Even(s: Store, t: Id, l: Id) {
    Mid(s, t, l) && t in s.threads && l in ThreadAt(s, t).runs && Coupled(s, t, l)
  }

  lemma EvenCouples(s: Store, t: Id, l: Id, r: Id)
    requires Even(s, t, l) && r in ThreadAt(s, t).runs
    ensures Coupled(s, t, r) && (Terminal(RunAt(ThreadAt(s, t), r).state) ==> Ended(RunAt(ThreadAt(s, t), r).state))
    ensures r != l ==> Ended(RunAt(ThreadAt(s, t), r).state)
  {
    hide Skeleton, ThreadOK;
  }

  lemma CancelEmitMid(s: Store, t: Id, l: Id, origin: Origin)
    requires OpenInv(s) && Even(s, t, l) && !Terminal(RunAt(ThreadAt(s, t), l).state)
    requires Emit(
      s, t, origin, RunStateChanged(l, RunAt(ThreadAt(s, t), l).state, RunState.Cancelled, [], None, None)).Ok?
    ensures
      var u := Committed(s, Emit(s, t, origin, RunStateChanged(l, RunAt(ThreadAt(s, t), l).state, RunState.Cancelled,
        [], None, None)));
      && OpenInv(u) && Mid(u, t, l) && u.jobs == s.jobs && t in u.threads && l in ThreadAt(u, t).runs
      && RunAt(ThreadAt(u, t), l).state.Cancelled? && Held(ThreadAt(s, t), ThreadAt(u, t))
      && u.approvals == s.approvals && u.intents == s.intents
  {
    hide OpenInv, Mid, Moves, Emit, Skeleton, Coupled, RunTransitions, SameFrame, Terminal;
    var change := RunStateChanged(l, s.threads[t].runs[l].state, RunState.Cancelled, [], None, None);
    EmitMid(s, t, l, origin, change);
    MovedRun(s.threads[t], l, s.threads[t].runs[l].state, RunState.Cancelled, [], None, None,
             Emit(s, t, origin, change).value.threads[t]);
  }

  lemma CancelRunEven(s: Store, t: Id, l: Id, r: Id, rows: seq<Id>, reason: string, origin: Origin)
    requires OpenInv(s) && Even(s, t, l) && CancelRun(s, t, r, rows, reason, origin).Ok?
    ensures var u := Committed(s, CancelRun(s, t, r, rows, reason, origin));
      && OpenInv(u) && Even(u, t, l) && Held(ThreadAt(s, t), ThreadAt(u, t))
      && (r in ThreadAt(u, t).runs ==> Ended(RunAt(ThreadAt(u, t), r).state))
  {
    hide OpenInv, Mid, Emit, Skeleton, CancelPendingActions, Sound, Confined, Advance, ClaimNextRun;
    if r in s.threads[t].runs {
      EvenCouples(s, t, l, r);
      if !Terminal(s.threads[t].runs[r].state) {
        var dropped := CancelPendingActions(s, r, rows, reason, origin);
        CancelPendingConfined(s, r, rows, reason, origin);
        ActionsKeepRows(s, dropped);
        CancelPendingSound(s, r, rows, reason, origin);
        SoundKeepsOpen(s, dropped);
        SameRowsMid(s, dropped, t, l);
        CancelEmitMid(dropped, t, l, origin);
        var change := RunStateChanged(r, s.threads[t].runs[r].state, RunState.Cancelled, [], None, None);
        var ended := Emit(dropped, t, origin, change).value;
        var u := CancelJob(ended, l, origin);
        CancelJobSound(ended, l, origin);
        SoundKeepsOpen(ended, u);
        if u == ended {
          assert Coupled(ended, t, l);
        } else {
          JobMid(ended, u, t, l, u.jobs[l]);
        }
      }
    }
  }

  lemma ActionsKeepRows(s: Store, u: Store)
    requires Confined(s, u, Area.Actions)
    ensures u.threads == s.threads && u.jobs == s.jobs
  {
    assert Quiet(s, u, Threads) && Quiet(s, u, Jobs);
  }

  lemma {:induction false} CancelRunsEven(s: Store, t: Id, l: Id, runs: seq<Id>, rows: seq<Id>, reason: string,
      origin: Origin)
    requires OpenInv(s) && Even(s, t, l) && CancelRuns(s, t, runs, rows, reason, origin).Ok?
    ensures var u := Committed(s, CancelRuns(s, t, runs, rows, reason, origin));
      && OpenInv(u) && Even(u, t, l) && Held(ThreadAt(s, t), ThreadAt(u, t))
      && forall r :: r in runs && r in ThreadAt(u, t).runs ==> Ended(RunAt(ThreadAt(u, t), r).state)
    decreases |runs|
  {
    hide OpenInv, CancelRun, Mid, Skeleton, Matches;
    if runs == [] {
    } else {
      var n := |runs| - 1;
      CancelRunsEven(s, t, l, runs[..n], rows, reason, origin);
      var earlier := CancelRuns(s, t, runs[..n], rows, reason, origin).value;
      CancelRunEven(earlier, t, l, runs[n], rows, reason, origin);
      var u := CancelRun(earlier, t, runs[n], rows, reason, origin).value;
      HeldTransitive(s.threads[t], earlier.threads[t], u.threads[t]);
      forall r | r in runs && r in u.threads[t].runs
        ensures Ended(u.threads[t].runs[r].state)
      {
        if r != runs[n] {
          assert r in runs[..n];
          assert r in u.threads[t].runs && Ended(RunAt(u.threads[t], r).state);
        }
      }
    }
  }

  lemma SettleAttentionEven(s: Store, t: Id, l: Id, origin: Origin)
    requires OpenInv(s) && Even(s, t, l) && SettleAttention(s, t, origin).Ok?
    ensures var u := Committed(s, SettleAttention(s, t, origin));
      OpenInv(u) && Even(u, t, l) && Held(ThreadAt(s, t), ThreadAt(u, t)) && ThreadAt(u, t).runs == ThreadAt(s, t).runs
  {
    hide OpenInv, Mid, Emit, Skeleton, Moves;
    if s.threads[t].attention.NeedsApproval? && NothingPending(s, t) {
      EmitMid(s, t, l, origin, AttentionChanged(AttentionState.Calm));
      AttentionMid(s, t, l, origin, AttentionState.Calm);
    }
  }

  lemma CancelForUpdateEven(s: Store, t: Id, l: Id, runs: seq<Id>, rows: seq<Id>, reason: string, origin: Origin)
    requires OpenInv(s) && Even(s, t, l) && CancelForUpdate(s, t, runs, rows, reason, origin).Ok?
    ensures var u := Committed(s, CancelForUpdate(s, t, runs, rows, reason, origin));
      && OpenInv(u) && Even(u, t, l) && Held(ThreadAt(s, t), ThreadAt(u, t))
      && forall r :: r in runs && r in ThreadAt(u, t).runs ==> Ended(RunAt(ThreadAt(u, t), r).state)
  {
    hide OpenInv, Held, CancelRuns, SettleAttention, Mid, Skeleton, Matches;
    CancelRunsEven(s, t, l, runs, rows, reason, origin);
    var a := CancelRuns(s, t, runs, rows, reason, origin).value;
    SettleAttentionEven(a, t, l, origin);
    HeldTransitive(s.threads[t], a.threads[t], SettleAttention(a, t, origin).value.threads[t]);
  }

  /** Every Run of p that has not ended is in the list. */
  predicate ListsOpen(p: ThreadProjection, runs: seq<Id>) {
    forall r :: r in p.runs && !Terminal(p.runs[r].state) ==> r in runs
  }

  lemma AllEnded(s: Store, t: Id, l: Id, u: Store, runs: seq<Id>)
    requires Even(s, t, l) && Even(u, t, l) && Held(ThreadAt(s, t), ThreadAt(u, t)) && ListsOpen(ThreadAt(s, t), runs)
    requires forall r :: r in runs && r in ThreadAt(u, t).runs ==> Ended(RunAt(ThreadAt(u, t), r).state)
    ensures forall r :: r in ThreadAt(u, t).runs ==> Ended(RunAt(ThreadAt(u, t), r).state)
  {
    hide Mid;
    forall r | r in u.threads[t].runs
      ensures Ended(u.threads[t].runs[r].state)
    {
      EvenCouples(s, t, l, r);
    }
  }

  // ---------------------------------------------------------------- cancelling the Thread

  /** The Thread's wish is withdrawn and every Run has ended. */
  ghost predicate Withdrawn(u: Store, t: Id, l: Id, actual: ThreadState) {
    && OpenInv(u) && Even(u, t, l) && ThreadAt(u, t).desired.Cancel? && ThreadAt(u, t).actual == actual
    && Ended(RunAt(ThreadAt(u, t), l).state)
  }

  lemma WishMoves(p: ThreadProjection, q: ThreadProjection)
    requires Moves(p, DesiredStateChanged(DesiredState.Cancel), q)
    ensures q.desired.Cancel? && q.actual == p.actual && q.runs == p.runs && q.activeRun == p.activeRun
    ensures q.latestDelivery == p.latestDelivery
  {
  }

  lemma WithdrawMid(s: Store, t: Id, l: Id, runs: seq<Id>, rows: seq<Id>, origin: Origin) returns (u: Store)
    requires OpenInv(s) && Finished(s, t, l) && ListsOpen(ThreadAt(s, t), runs)
    requires Emit(s, t, origin, DesiredStateChanged(DesiredState.Cancel)).Ok?
    requires
      var wanted := Committed(s, Emit(s, t, origin, DesiredStateChanged(DesiredState.Cancel)));
      CancelForUpdate(wanted, t, runs, rows, USER_CANCELLED, origin).Ok?
    ensures
      var wanted := Committed(s, Emit(s, t, origin, DesiredStateChanged(DesiredState.Cancel)));
      CancelForUpdate(wanted, t, runs, rows, USER_CANCELLED, origin) == Ok(u)
    ensures t in s.threads && Withdrawn(u, t, l, ThreadAt(s, t).actual)
  {
    hide OpenInv, Mid, Emit, Skeleton, CancelForUpdate, Matches, SameFrame;
    var wish := DesiredStateChanged(DesiredState.Cancel);
    EmitMid(s, t, l, origin, wish);
    var wanted := Emit(s, t, origin, wish).value;
    WishMoves(s.threads[t], wanted.threads[t]);
    CancelForUpdateEven(wanted, t, l, runs, rows, USER_CANCELLED, origin);
    u := CancelForUpdate(wanted, t, runs, rows, USER_CANCELLED, origin).value;
    AllEnded(wanted, t, l, u, runs);
  }

  // ---------------------------------------------------------------- a superseding Run

  /** The context of the new Run is the superseded one's with the update's own item behind it. */
  predicate OneItemMore(earlier: seq<ContextItem>, later: seq<ContextItem>, message: Id) {
    |later| == |earlier| + 1 && later[..|earlier|] == earlier && later[|earlier|].sourceRef == message
  }

  /** Task and context go on from a Run's. */
  ghost predicate GoesOn(run: RunProjection, task: Option<Artifact>, context: Option<Artifact>, message: Id) {
    OneItemMore(ItemsOf(run.context), ItemsOf(context), message) && TaskGrows(run.task, task)
  }

  /** Either the current branch goes on, or the message's own branch forks from it. */
  predicate FitBranch(p: ThreadProjection, sub: ThreadUpdateSubmission) {
    || (sub.forkedFrom.None? && TargetBranch(sub, p.currentBranch) == p.currentBranch)
    || (sub.forkedFrom == Some(p.currentBranch) && sub.branchId == Some(BranchOf(sub.messageKey))
        && sub.baseRevision == Some(p.revision) && sub.forkedFromEvent.Some? && sub.reason.Some?)
  }

  /** An executable update compiled from p, whose newest Run is l. */
  ghost predicate FitRun(p: ThreadProjection, l: Id, sub: ThreadUpdateSubmission) {
    && Executable(sub) && sub.maxAttempts >= 1 && NonBlank(sub.executorKey)
    && l in p.runs && sub.supersedes == Some(l) && ListsOpen(p, sub.supersedesRuns)
    && sub.newRun == Some(UpdateRunOf(sub.messageKey))
    && StoredInputs(sub.task.value, sub.context.value)
    && GoesOn(p.runs[l], sub.task, sub.context, sub.messageKey)
    && FitBranch(p, sub)
  }

  /** Only Thread t moved. */
  ghost predicate OnlyThread(s: Store, u: Store, t: Id) {
    t in u.threads && u == s.(journal := u.journal, threads := s.threads[t := u.threads[t]])
  }

  /** One more event on Thread t, in the words of OnlyThread. */
  lemma EmitOnly(s: Store, a: Store, t: Id, origin: Origin, change: ThreadEvent) returns (u: Store)
    requires OpenInv(a) && t in a.threads && OnlyThread(s, a, t) && ThreadAt(a, t).threadId == t
    requires !change.ThreadCreated? && Emit(a, t, origin, change).Ok?
    ensures Emit(a, t, origin, change) == Ok(u)
    ensures OpenInv(u) && t in u.threads && OnlyThread(s, u, t) && OnlyThread(a, u, t) && ThreadAt(u, t).threadId == t
    ensures Moves(ThreadAt(a, t), change, ThreadAt(u, t))
  {
    hide OpenInv, Moves, Emit;
    EmitMoves(a, t, origin, change);
    u := Emit(a, t, origin, change).value;
  }

  /** The Thread when everything superseded has ended and a fork, if any, has been made. */
  ghost predicate Ready(p: ThreadProjection, l: Id, message: Id) {
    Cleared(p, Some(l)) && p.HasUpdate(message)
  }

  lemma ForkedReady(
    p: ThreadProjection, l: Id, message: Id, eventId: EventId, base: nat, reason: string, q: ThreadProjection,
    u: ThreadProjection)
    requires Ready(p, l, message) && p.currentBranch != BranchOf(message) && base <= p.revision
    requires forall b :: b in p.branches ==> Base(Row(p.branches, b)) < base
    requires Moves(p, BranchForked(BranchOf(message), Some(p.currentBranch), eventId, base, reason), q)
    requires Moves(q, BranchSelected(BranchOf(message)), u)
    ensures Ready(u, l, message) && u.runs == p.runs && u.currentBranch == BranchOf(message)
    ensures u.actual == p.actual && u.latestDelivery == p.latestDelivery
  {
    hide Moves, Skeleton, Latest, BranchesOK, KeysOK;
    SkeletonParts(p);
    Forked(p, BranchOf(message), eventId, base, reason, q);
    BranchesKeepSkeleton(p, q);
    Chosen(q, BranchOf(message), u);
    BranchesKeepSkeleton(q, u);
    OnlyBranchesLatest(p, q, l);
    OnlyBranchesLatest(q, u, l);
  }

  lemma SkeletonParts(p: ThreadProjection)
    requires Skeleton(p)
    ensures BranchesOK(p) && KeysOK(p) && RunsNumbered(p)
  {
    hide BranchesOK, ContextsOK, JustBefore, KeysOK, SingleWriter;
  }

  lemma OnlyBranchesLatest(p: ThreadProjection, q: ThreadProjection, l: Id)
    requires OnlyBranches(p, q) && Latest(p, l)
    ensures Latest(q, l)
  {
    SameLineageKeepsLatest(p, q, l);
  }

  lemma BoundThenQueued(
    p: ThreadProjection, r: Id, a: ThreadProjection, b: ThreadProjection, c: ThreadProjection, task: Artifact,
    agent: Artifact, context: Artifact)
    requires Adds(p, r, a) && Binds(a, r, task, agent, context, b) && Skeleton(b) && Latest(b, r)
    requires RunAt(a, r).state.Created? && RunAt(a, r).branchId == a.currentBranch
    requires Moves(b, RunStateChanged(r, RunState.Created, RunState.Queued, [], None, None), c)
    ensures Refilled(p, r, c) && Bound(RunAt(c, r)) && RunAt(c, r).executorKey == RunAt(a, r).executorKey
  {
    hide Moves, Skeleton, Latest, Emit, RunTransitions, Terminal;
    var change := RunStateChanged(r, RunState.Created, RunState.Queued, [], None, None);
    MovedRun(b, r, RunState.Created, RunState.Queued, [], None, None, c);
    FrameKeepsSkeleton(b, change, c);
    FrameKeepsLinks(b, c);
    SameLineageKeepsLatest(b, c, r);
    assert c.runs == p.runs[r := c.runs[r]];
  }

  lemma ForkMoves(s: Store, t: Id, l: Id, sub: ThreadUpdateSubmission, before: ThreadProjection, origin: Origin)
    returns (u: Store)
    requires OpenInv(s) && t in s.threads && ThreadAt(s, t).threadId == t && sub.threadId == t
    requires Ready(ThreadAt(s, t), l, sub.messageKey) && FitBranch(before, sub)
    requires before.currentBranch == ThreadAt(s, t).currentBranch && before.branches == ThreadAt(s, t).branches
    requires before.currentBranch != BranchOf(sub.messageKey) && before.revision <= ThreadAt(s, t).revision
    requires forall b :: b in before.branches ==> Base(Row(before.branches, b)) < before.revision
    requires ForkForUpdate(s, sub, TargetBranch(sub, ThreadAt(s, t).currentBranch), origin).Ok?
    ensures ForkForUpdate(s, sub, TargetBranch(sub, ThreadAt(s, t).currentBranch), origin) == Ok(u)
    ensures OpenInv(u) && OnlyThread(s, u, t) && t in u.threads && ThreadAt(u, t).threadId == t
    ensures Ready(ThreadAt(u, t), l, sub.messageKey) && ThreadAt(u, t).runs == ThreadAt(s, t).runs
    ensures ThreadAt(u, t).currentBranch == TargetBranch(sub, ThreadAt(s, t).currentBranch)
    ensures ThreadAt(u, t).actual == ThreadAt(s, t).actual
      && ThreadAt(u, t).latestDelivery == ThreadAt(s, t).latestDelivery
  {
    hide OpenInv, Moves, Emit, Ready;
    u := s;
    if sub.forkedFrom.Some? {
      var branch := BranchOf(sub.messageKey);
      var fork := BranchForked(branch, sub.forkedFrom, sub.forkedFromEvent.value, sub.baseRevision.value,
          sub.reason.value);
      var forked := EmitOnly(s, s, t, origin, fork);
      u := EmitOnly(s, forked, t, origin, BranchSelected(branch));
      ForkedReady(s.threads[t], l, sub.messageKey, sub.forkedFromEvent.value, sub.baseRevision.value,
                  sub.reason.value, forked.threads[t], u.threads[t]);
    }
  }

  lemma CreateQueuedMoves(
    s: Store, t: Id, l: Id, sub: ThreadUpdateSubmission, branch: Id, origin: Origin) returns (u: Store)
    requires OpenInv(s) && t in s.threads && ThreadAt(s, t).threadId == t
    requires Ready(ThreadAt(s, t), l, sub.messageKey) && l in ThreadAt(s, t).runs
      && branch == ThreadAt(s, t).currentBranch
    requires Executable(sub) && NonBlank(sub.executorKey) && sub.newRun == Some(UpdateRunOf(sub.messageKey))
    requires sub.supersedes == Some(l) && StoredInputs(The(sub.task), The(sub.context))
    requires GoesOn(RunAt(ThreadAt(s, t), l), sub.task, sub.context, sub.messageKey)
    requires
      var creation := RunCreated(The(sub.newRun), branch, sub.executorKey, sub.supersedes);
      var binding := SnapshotsBound(The(sub.newRun), The(sub.task), The(sub.agent), The(sub.context));
      CreateQueuedRun(s, t, creation, binding, origin).Ok?
    ensures
      var creation := RunCreated(The(sub.newRun), branch, sub.executorKey, sub.supersedes);
      var binding := SnapshotsBound(The(sub.newRun), The(sub.task), The(sub.agent), The(sub.context));
      CreateQueuedRun(s, t, creation, binding, origin) == Ok(u)
    ensures OpenInv(u) && OnlyThread(s, u, t) && t in u.threads && ThreadAt(u, t).threadId == t
    ensures var r := The(sub.newRun);
      && Refilled(ThreadAt(s, t), r, ThreadAt(u, t)) && Bound(RunAt(ThreadAt(u, t), r))
      && RunAt(ThreadAt(u, t), r).executorKey == sub.executorKey
  {
    hide OpenInv, Moves, Emit;
    var r, p := sub.newRun.value, s.threads[t];
    var task, agent, context := sub.task.value, sub.agent.value, sub.context.value;
    var creation := RunCreated(r, branch, sub.executorKey, sub.supersedes);
    var binding := SnapshotsBound(r, task, agent, context);
    var queueing := RunStateChanged(r, RunState.Created, RunState.Queued, [], None, None);
    var a := EmitOnly(s, s, t, origin, creation);
    var b := EmitOnly(s, a, t, origin.(actor := "context-compiler"), binding);
    u := EmitOnly(s, b, t, origin.(actor := "scheduler"), queueing);
    CreatedKeepsSkeleton(p, r, sub.executorKey, Some(l), a.threads[t]);
    CreatedExact(p, r, p.currentBranch, sub.executorKey, Some(l), a.threads[t]);
    BoundKeepsSkeleton(a.threads[t], r, task, agent, context, b.threads[t]);
    BoundThenQueued(p, r, a.threads[t], b.threads[t], u.threads[t], task, agent, context);
  }

  lemma QueueMoves(s: Store, a: Store, t: Id, l: Id, r: Id, origin: Origin) returns (u: Store)
    requires OpenInv(a) && t in s.threads && t in a.threads && OnlyThread(s, a, t) && ThreadAt(a, t).threadId == t
    requires Cleared(ThreadAt(s, t), Some(l)) && Refilled(ThreadAt(s, t), r, ThreadAt(a, t))
    requires r in ThreadAt(a, t).runs && Bound(RunAt(ThreadAt(a, t), r))
    requires QueueThread(a, t, origin).Ok?
    ensures QueueThread(a, t, origin) == Ok(u)
    ensures OnlyThread(s, u, t) && t in u.threads && ThreadAt(u, t).threadId == t
    ensures Shaped(ThreadAt(u, t), r) && ThreadAt(u, t).runs == ThreadAt(a, t).runs
    ensures ThreadAt(u, t).latestDelivery == ThreadAt(a, t).latestDelivery
  {
    hide OpenInv, Moves, Emit, Skeleton, Latest, SameFrame, ThreadTransitions;
    var p := a.threads[t];
    assert Led(p, r);
    u := a;
    if Requeued(p.actual) {
      var change := ThreadStateChanged(p.actual, ThreadState.Queued, []);
      u := EmitOnly(s, a, t, origin, change);
      MovedThread(p, p.actual, ThreadState.Queued, [], u.threads[t]);
      FrameKeepsSkeleton(p, change, u.threads[t]);
      FrameKeepsLed(p, u.threads[t], r);
    }
  }

  /** From a Thread whose Runs have all ended to one led by the superseding Run. */
  lemma ScheduleAgrees(s: Store, t: Id, l: Id, sub: ThreadUpdateSubmission, branch: Id, origin: Origin)
    requires OpenInv(s) && t in s.threads && ThreadAt(s, t).threadId == t && sub.threadId == t
    requires JobsOwned(s) && forall x :: x in s.threads && x != t ==> AgreesOn(s, x)
    requires forall y :: y in ThreadAt(s, t).runs ==> Coupled(s, t, y)
    requires Ready(ThreadAt(s, t), l, sub.messageKey) && branch == ThreadAt(s, t).currentBranch
    requires l in ThreadAt(s, t).runs && Executable(sub) && sub.maxAttempts >= 1 && NonBlank(sub.executorKey)
    requires sub.supersedes == Some(l) && sub.newRun == Some(UpdateRunOf(sub.messageKey))
    requires StoredInputs(The(sub.task), The(sub.context))
    requires GoesOn(RunAt(ThreadAt(s, t), l), sub.task, sub.context, sub.messageKey)
    requires ScheduleNewRun(s, sub, branch, origin).Ok?
    ensures AgreeInv(Committed(s, ScheduleNewRun(s, sub, branch, origin)))
  {
    hide OpenInv, Skeleton, Shaped, Latest, AgreesOn, JobsOwned, AgreeInv, CreateQueuedRun, QueueThread, NonBlank,
      Matches, GoesOn, StoredInputs, Cleared, Coupled;
    var r, scheduler := sub.newRun.value, origin.(actor := "scheduler");
    var queued := CreateQueuedMoves(s, t, l, sub, branch, origin);
    var ready := QueueMoves(s, queued, t, l, r, scheduler);
    var job := NewJob(r, t, sub.priority, sub.at, sub.maxAttempts, sub.executorKey, sub.at);
    var u := InsertJob(ready, job, scheduler).value;
    NewRunAgrees(s, u, t, r, job);
  }

  /** The update's message is new to the Thread, so its branch is too. */
  lemma MessageNoted(p: ThreadProjection, change: ThreadEvent, q: ThreadProjection)
    requires change.MessageAppended? && Moves(p, change, q) && KeysOK(p)
    ensures !p.HasUpdate(change.updateId) && q.HasUpdate(change.updateId)
    ensures p.currentBranch != BranchOf(change.updateId)
    ensures SameFrame(p, q) && q.runs == p.runs && q.actual == p.actual && q.desired == p.desired
    ensures q.latestDelivery == p.latestDelivery && q.revision == p.revision + 1
  {
    assert q.updates[|q.updates| - 1].updateId == change.updateId;
  }

  /** The store part-way through an executable update: message noted, superseded Runs cancelled. */
  ghost predicate Emptied(s: Store, t: Id, l: Id, p: ThreadProjection, message: Id) {
    && OpenInv(s) && Even(s, t, l) && Ready(ThreadAt(s, t), l, message)
    && ThreadAt(s, t).branches == p.branches && ThreadAt(s, t).currentBranch == p.currentBranch
    && p.revision <= ThreadAt(s, t).revision
    && l in p.runs && RunAt(ThreadAt(s, t), l).context == RunAt(p, l).context
    && RunAt(ThreadAt(s, t), l).task == RunAt(p, l).task
  }

  lemma ClearForUpdate(s: Store, noted: Store, t: Id, l: Id, sub: ThreadUpdateSubmission, rows: seq<Id>, origin: Origin)
    returns (u: Store)
    requires t in s.threads && OpenInv(noted) && Even(noted, t, l) && sub.threadId == t
    requires var p, q := ThreadAt(s, t), ThreadAt(noted, t);
      && SameFrame(p, q) && q.runs == p.runs && q.actual == p.actual && q.desired == p.desired
      && l in p.runs && Mirrors(p, RunAt(p, l).state) && p.desired.Run? && q.HasUpdate(sub.messageKey)
      && ListsOpen(p, sub.supersedesRuns)
    requires CancelForUpdate(noted, t, sub.supersedesRuns, rows, SupersededBy(sub.kind), origin).Ok?
    ensures CancelForUpdate(noted, t, sub.supersedesRuns, rows, SupersededBy(sub.kind), origin) == Ok(u)
    ensures t in s.threads && Emptied(u, t, l, ThreadAt(s, t), sub.messageKey)
  {
    hide OpenInv, Skeleton, CancelForUpdate, SupersededBy, Matches, JobsOwned, AgreesOn;
    CancelForUpdateEven(noted, t, l, sub.supersedesRuns, rows, SupersededBy(sub.kind), origin);
    u := CancelForUpdate(noted, t, sub.supersedesRuns, rows, SupersededBy(sub.kind), origin).value;
    AllEnded(noted, t, l, u, sub.supersedesRuns);
    var p, q := s.threads[t], u.threads[t];
    assert q.branches == p.branches && q.currentBranch == p.currentBranch && p.revision <= q.revision;
    assert l in q.runs && RunAt(q, l).context == RunAt(p, l).context && RunAt(q, l).task == RunAt(p, l).task;
    assert q.HasUpdate(sub.messageKey);
    hide SameFrame, ListsOpen;
    assert Cleared(q, Some(l));
  }

  lemma StartNewRunAgrees(s: Store, t: Id, l: Id, sub: ThreadUpdateSubmission, before: ThreadProjection, origin: Origin)
    requires Emptied(s, t, l, before, sub.messageKey) && FitRun(before, l, sub) && sub.threadId == t
    requires BranchesOK(before) && before.currentBranch != BranchOf(sub.messageKey)
    requires StartNewRun(s, sub, origin).Ok?
    ensures AgreeInv(Committed(s, StartNewRun(s, sub, origin)))
  {
    hide OpenInv, Skeleton, Latest, ForkForUpdate, ScheduleNewRun, NonBlank, Matches, OneItemMore, TaskGrows, AgreeInv,
      AgreesOn, BranchesOK, FitBranch, Led, ListsOpen, Ready;
    var branch := TargetBranch(sub, s.threads[t].currentBranch);
    BasesBelow(before);
    assert t in s.threads && s.threads[t].threadId == t;
    var branched := ForkMoves(s, t, l, sub, before, origin);
    RestAgrees(s, branched, t, branched.threads[t]);
    forall y | y in branched.threads[t].runs
      ensures Coupled(branched, t, y)
    {
      assert Coupled(s, t, y);
    }
    ScheduleAgrees(branched, t, l, sub, branch, origin);
  }

  lemma BasesBelow(p: ThreadProjection)
    requires BranchesOK(p)
    ensures forall b :: b in p.branches ==> Base(Row(p.branches, b)) < p.revision
  {
    forall b | b in p.branches
      ensures Base(p.branches[b]) < p.revision
    {
      assert ForkOK(p, b);
    }
  }

  /** An update compiled from the Thread it is applied to. */
  ghost predicate FitUpdate(p: ThreadProjection, l: Id, sub: ThreadUpdateSubmission, ids: seq<Id>) {
    if sub.kind.Cancel? then ListsOpen(p, ids) else FitRun(p, l, sub)
  }

  lemma UpdateAgrees(s: Store, sub: ThreadUpdateSubmission, l: Id, ids: seq<Id>, rows: seq<Id>)
    requires OpenInv(s) && Finished(s, sub.threadId, l) && FitUpdate(ThreadAt(s, sub.threadId), l, sub, ids)
    requires ApplyThreadUpdate(s, sub, ids, rows).Ok?
    ensures AgreeInv(Committed(s, ApplyThreadUpdate(s, sub, ids, rows)))
  {
    hide OpenInv, Skeleton, Moves, Emit, Mid, CancelThread, CancelForUpdate, StartNewRun, SupersededBy, AgreeInv,
      NonBlank, Matches, BranchesOK, Emptied, Mirrors, SameFrame, KeysOK, FitBranch;
    var t, origin := sub.threadId, UpdateOrigin(sub);
    var p := s.threads[t];
    var change := MessageAppended(
      sub.messageKey, sub.message, sub.text, sub.kind, p.currentBranch, sub.task, sub.context, sub.newRun);
    EmitMid(s, t, l, origin, change);
    var noted := Emit(s, t, origin, change).value;
    MidParts(s, t, l);
    MessageNoted(p, change, noted.threads[t]);
    if sub.kind.Cancel? {
      UpdateCancels(s, noted, t, l, ids, rows, origin);
    } else {
      assert l in p.runs && ListsOpen(p, sub.supersedesRuns);
      var cleared := ClearForUpdate(s, noted, t, l, sub, rows, origin);
      StartNewRunAgrees(cleared, t, l, sub, p, origin);
    }
  }

  lemma FitRunParts(p: ThreadProjection, l: Id, sub: ThreadUpdateSubmission)
    requires FitRun(p, l, sub)
    ensures l in p.runs && ListsOpen(p, sub.supersedesRuns)
  {
  }

  lemma MidParts(s: Store, t: Id, l: Id)
    requires Mid(s, t, l)
    ensures t in s.threads && KeysOK(ThreadAt(s, t)) && BranchesOK(ThreadAt(s, t))
  {
    hide AgreesOn, BranchesOK, ContextsOK, Coupled, Led, LineageOK, Terminal;
  }

  lemma UpdateCancels(s: Store, noted: Store, t: Id, l: Id, ids: seq<Id>, rows: seq<Id>, origin: Origin)
    requires OpenInv(noted) && Finished(s, t, l) && Mid(noted, t, l) && noted.jobs == s.jobs
    requires t in s.threads && t in noted.threads && ListsOpen(ThreadAt(s, t), ids)
    requires var p, q := ThreadAt(s, t), ThreadAt(noted, t);
      q.runs == p.runs && q.actual == p.actual && q.desired == p.desired && !p.actual.Cancelled?
    requires CancelThread(noted, t, ids, rows, origin).Ok?
    ensures AgreeInv(Committed(noted, CancelThread(noted, t, ids, rows, origin)))
  {
    hide OpenInv, Mid, AgreeInv, CancelForUpdate, Emit, ReduceExisting, SameFrame;
    var cleared := WithdrawMid(noted, t, l, ids, rows, origin);
    var from := cleared.threads[t].actual;
    var change := ThreadStateChanged(from, ThreadState.Cancelled, []);
    EmitMid(cleared, t, l, origin, change);
    var u := Emit(cleared, t, origin, change).value;
    MovedThread(cleared.threads[t], from, ThreadState.Cancelled, [], u.threads[t]);
    Leave(u, t, l);
  }

  // =========================================================================== the inbox
  // What the inbox coordinator compiles fits the Thread it is applied to, so agreement survives.

  /** `ids` lists exactly the Thread's Runs. */
  ghost predicate Lists(p: ThreadProjection, ids: seq<Id>) {
    forall r :: r in p.runs <==> r in ids
  }

  // ---------------------------------------------------------------- the basis Run

  lemma {:induction false} NewestListed(p: ThreadProjection, ids: seq<Id>)
    ensures Newest(p, ids).Some? ==> Newest(p, ids).value in ids && Newest(p, ids).value in p.runs
    decreases |ids|
  {
    if ids != [] {
      NewestListed(p, ids[..|ids| - 1]);
    }
  }

  /** The source's `max` over any listing that has the latest Run finds it. */
  lemma {:induction false} NewestIsLatest(p: ThreadProjection, ids: seq<Id>, l: Id)
    requires Latest(p, l) && l in ids
    ensures Newest(p, ids) == Some(l)
    decreases |ids|
  {
    var n := |ids| - 1;
    var last := ids[n];
    if l in ids[..n] {
      NewestIsLatest(p, ids[..n], l);
      assert last in p.runs && last != l ==> Earlier(p, last, l);
    } else {
      NewestListed(p, ids[..n]);
      var earlier := Newest(p, ids[..n]);
      assert earlier.Some? ==> Earlier(p, earlier.value, l);
    }
  }

  lemma {:induction false} OnBranchHas(p: ThreadProjection, ids: seq<Id>, l: Id)
    requires l in ids && l in p.runs && RunAt(p, l).branchId == p.currentBranch
    ensures l in OnCurrentBranch(p, ids)
    decreases |ids|
  {
    var n := |ids| - 1;
    if l != ids[n] {
      assert l in ids[..n];
      OnBranchHas(p, ids[..n], l);
    }
  }

  /** An update builds on the Thread's latest Run. */
  lemma BasisIsLatest(p: ThreadProjection, ids: seq<Id>, l: Id)
    requires Led(p, l) && Lists(p, ids)
    ensures Basis(p, ids) == Some(l)
  {
    OnBranchHas(p, ids, l);
    NewestIsLatest(p, OnCurrentBranch(p, ids), l);
  }

  lemma {:induction false} SupersededHas(p: ThreadProjection, ids: seq<Id>, r: Id)
    requires r in ids && r in p.runs && RunAt(p, r).branchId == p.currentBranch && !Terminal(RunAt(p, r).state)
    ensures r in Superseded(p, ids)
    decreases |ids|
  {
    var n := |ids| - 1;
    if r != ids[n] {
      assert r in ids[..n];
      SupersededHas(p, ids[..n], r);
    }
  }

  // ---------------------------------------------------------------- compiled inputs

  lemma InputsReadable(p: ThreadProjection, l: Id)
    requires Skeleton(p) && l in p.runs
    ensures InputsOK(RunAt(p, l))
  {
    hide BranchesOK, ContextGrows, InputsOK, KeysOK, LineageOK, SingleWriter;
  }

  lemma ContextForFits(
    basis: RunProjection, record: InboxRecord, task: Artifact, agent: Artifact, kind: UpdateKind, at: Time)
    returns (context: Artifact)
    requires InputsOK(basis)
    ensures ContextFor(Some(basis), record, task, agent, kind, at) == Ok(context)
    ensures context.ContextArtifact? && Increasing(ItemsOf(Some(context)))
    ensures OneItemMore(ItemsOf(basis.context), ItemsOf(Some(context)), record.messageKey)
  {
    hide PutContext;
    var items := ItemsOf(basis.context);
    var item := UpdateItem(items, record, kind);
    var manifest := ContextManifest(task, agent, items + [item], "thread-update-context-v1", at);
    assert Increasing(items);
    PutContextAppends(manifest, items, item);
    assert (items + [item])[..|items|] == items;
    context := ContextFor(Some(basis), record, task, agent, kind, at).value;
  }

  /** It replaces every Run of the Thread that has not ended. */
  lemma SupersededListsOpen(p: ThreadProjection, ids: seq<Id>, l: Id)
    requires Led(p, l) && Lists(p, ids)
    ensures ListsOpen(p, Superseded(p, ids))
  {
    forall r | r in p.runs && !Terminal(p.runs[r].state)
      ensures r in Superseded(p, ids)
    {
      SupersededHas(p, ids, r);
    }
  }

  /** Preparing never fails on a Thread of the closed protocol. */
  lemma PreparingSucceeds(
    p: ThreadProjection, l: Id, ids: seq<Id>, record: InboxRecord, text: string, kind: UpdateKind, agent: Artifact,
    at: Time)
    requires Skeleton(p) && Led(p, l) && Lists(p, ids)
    ensures PrepareRun(p, ids, record, text, kind, agent, at).Ok?
  {
    hide Skeleton, Latest, ContextFor, Basis, Superseded, OneItemMore;
    BasisIsLatest(p, ids, l);
    InputsReadable(p, l);
    hide Led, Lists;
    var basis := p.runs[l];
    var task := TaskFor(Some(basis), record, p, text, kind, at).value;
    var _ := ContextForFits(basis, record, task.0, AgentFor(Some(basis), agent), kind, at);
  }

  lemma {:induction false} DedupKeeps(items: seq<Artifact>, x: Artifact)
    ensures x in Dedup(items) <==> x in items
    decreases |items|
  {
    if items != [] {
      DedupKeeps(items[..|items| - 1], x);
      SplitLast(items);
    }
  }

  lemma NextTaskGrows(
    basis: RunProjection, record: InboxRecord, thread: ThreadProjection, text: string, kind: UpdateKind, at: Time)
    requires TaskFor(Some(basis), record, thread, text, kind, at).Ok?
    ensures TaskGrows(basis.task, Some(TaskFor(Some(basis), record, thread, text, kind, at).value.0))
  {
    hide Dedup, ExecutorKeyFor;
    if basis.task.Some? {
      var inputs := basis.task.value.task.inputs;
      forall x | x in inputs
        ensures x in Dedup(inputs + [record.text])
      {
        DedupKeeps(inputs + [record.text], x);
      }
    }
  }

  /** An update prepared from p fits p. */
  lemma PreparedFits(
    p: ThreadProjection, l: Id, ids: seq<Id>, record: InboxRecord, text: string, kind: UpdateKind, agent: Artifact,
    at: Time, sub: ThreadUpdateSubmission)
    requires Skeleton(p) && Led(p, l) && Lists(p, ids)
    requires PrepareRun(p, ids, record, text, kind, agent, at) == Ok(sub)
    requires NonBlank(sub.executorKey)
    ensures FitRun(p, l, sub)
  {
    hide Skeleton, Latest, ContextFor, Basis, Superseded, OneItemMore, NonBlank, InputsOK, TaskGrows, RevisedTask;
    BasisIsLatest(p, ids, l);
    SupersededListsOpen(p, ids, l);
    InputsReadable(p, l);
    var basis := p.runs[l];
    hide Led, ListsOpen, Lists;
    var task := TaskFor(Some(basis), record, p, text, kind, at).value;
    NextTaskGrows(basis, record, p, text, kind, at);
    var _ := ContextForFits(basis, record, task.0, AgentFor(Some(basis), agent), kind, at);
  }

  // ---------------------------------------------------------------- stale reads

  /** A projection somebody read: the replay of some prefix of the journal. */
  ghost predicate Genuine(s: Store, seen: ThreadProjection) {
    exists prefix :: prefix <= s.journal && Replay(prefix, seen.threadId) == Ok(Some(seen))
  }

  /** The revision check turns a stale read into the current Thread or a conflict. */
  lemma SeenIsCurrent(s: Store, seen: ThreadProjection)
    requires Faithful(s) && Genuine(s, seen)
    requires seen.threadId in s.threads && ThreadAt(s, seen.threadId).revision == seen.revision
    ensures seen == ThreadAt(s, seen.threadId)
  {
    hide Replay, Sequenced, WriteJob;
    var t := seen.threadId;
    var prefix :| prefix <= s.journal && Replay(prefix, t) == Ok(Some(seen));
    assert prefix == s.journal[..|prefix|];
    assert Replay(s.journal, t) == Ok(Some(s.threads[t]));
    SequencedPrefix(s.journal, |prefix|);
    SameRevisionSameThread(prefix, s.journal, t, seen, s.threads[t]);
  }

  // ---------------------------------------------------------------- the transactions

  /** What a coordinator call passes along: a genuine read with its Runs listed. */
  ghost predicate GoodRead(s: Store, seen: Option<ThreadProjection>, ids: seq<Id>) {
    match seen
    case Some(p) => Genuine(s, p) && Lists(p, ids)
    case None => true
  }

  /** The journal only grew and the Threads are the same. */
  ghost predicate Noted(s: Store, u: Store) {
    OpenInv(u) && AgreeInv(u) && s.journal <= u.journal && u.threads == s.threads
  }

  /** An update prepared from a genuine read, applied: either it conflicts or agreement survives. */
  lemma PreparedUpdateAgrees(
    s: Store, u: Store, seen: Option<ThreadProjection>, ids: seq<Id>, rows: seq<Id>, record: InboxRecord, text: string,
    kind: UpdateKind, agent: Artifact, at: Time, sub: ThreadUpdateSubmission)
    requires GoodRead(s, seen, ids) && Noted(s, u)
    requires PrepareUpdate(seen, ids, record, text, kind, agent, at) == Ok(sub)
    requires ApplyThreadUpdate(u, sub, ids, rows).Ok?
    ensures AgreeInv(Committed(u, ApplyThreadUpdate(u, sub, ids, rows)))
  {
    hide AgreeInv, ApplyThreadUpdate, PrepareRun, Skeleton, Led, Matches, Mirrors, NonBlank, FitRun, Replay, Coupled,
      Sequenced, Strip;
    var p := seen.value;
    PreparedTarget(p, ids, record, text, kind, agent, at, sub);
    AdmittedFacts(u, sub, ids, rows);
    assert Faithful(u);
    assert Genuine(u, p);
    SeenIsCurrent(u, p);
    var l := Enter(u, p.threadId);
    assert p.threadId in u.threads && Skeleton(ThreadAt(u, p.threadId)) && Led(ThreadAt(u, p.threadId), l);
    if kind.Cancel? {
      assert ListsOpen(p, ids);
    } else {
      PreparedFits(p, l, ids, record, Strip(text), kind, agent, at, sub);
    }
    UpdateAgrees(u, sub, l, ids, rows);
  }

  lemma MidShape(s: Store, t: Id, l: Id)
    requires Mid(s, t, l)
    ensures t in s.threads && Skeleton(ThreadAt(s, t)) && Led(ThreadAt(s, t), l)
  {
    hide Skeleton, Led, AgreesOn, JobsOwned;
  }

  /** Whatever is prepared carries the read Thread's id, revision and the requested kind. */
  lemma PreparedTarget(
    p: ThreadProjection, ids: seq<Id>, record: InboxRecord, text: string, kind: UpdateKind, agent: Artifact, at: Time,
    sub: ThreadUpdateSubmission)
    requires PrepareUpdate(Some(p), ids, record, text, kind, agent, at) == Ok(sub)
    ensures sub.threadId == p.threadId && sub.expectedRevision == p.revision && sub.kind == kind
      && sub.messageKey == record.messageKey && record.threadId == Some(p.threadId)
      && (kind.Cancel? ==> sub.newRun.None?)
      && (!kind.Cancel? ==> PrepareRun(p, ids, record, Strip(text), kind, agent, at) == Ok(sub)
                            && sub.newRun == Some(UpdateRunOf(record.messageKey)))
  {
    hide TaskFor, ContextFor, Basis, Superseded;
  }

  lemma AdmittedFacts(s: Store, sub: ThreadUpdateSubmission, ids: seq<Id>, rows: seq<Id>)
    requires ApplyThreadUpdate(s, sub, ids, rows).Ok?
    ensures NonBlank(sub.executorKey) && sub.threadId in s.threads
    ensures ThreadAt(s, sub.threadId).revision == sub.expectedRevision
  {
    hide Emit, CancelThread, CancelForUpdate, StartNewRun, NonBlank;
  }

  lemma PreparedTaskFits(record: InboxRecord, objective: string, agent: Artifact, sub: TaskSubmission)
    requires PrepareTask(record, objective, agent) == Ok(sub)
    ensures FitSubmission(sub) && Some(sub.threadId) == record.threadId && sub.runId == RunOf(record.messageKey)
  {
    var first := ContextItem(1, "inbox", record.messageKey, record.text, "direct", "normal", None);
    var task := TaskArtifact(TaskSnapshot(
      record.threadId.value, record.threadId.value, record.projectId, objective, record.domain, [], [], [record.text],
      "normal", record.updatedAt, "unassigned"));
    PutContextIff(ContextManifest(task, agent, [first], "inbox-context-v1", record.updatedAt));
  }

  lemma AcceptedNoted(s: Store, record: InboxRecord)
    requires OpenInv(s) && AgreeInv(s)
    ensures Noted(s, LogAcceptance(s, record).(inbox := s.inbox[record.messageKey := record]))
  {
    hide OpenInv, AgreeInv, LogAcceptance, Sound, Confined, ActionsAdvance, LeasesAdvance, RowsAdvance;
    var logged := LogAcceptance(s, record);
    var u := logged.(inbox := s.inbox[record.messageKey := record]);
    LogAcceptanceSound(s, record);
    LogAcceptanceKeeps(s, record);
    AsideSound(logged, u);
    SoundKeepsOpen(s, logged);
    SoundKeepsOpen(logged, u);
    assert s.journal <= logged.journal;
    SameRowsAgree(s, u);
  }

  lemma LogAcceptanceKeeps(s: Store, record: InboxRecord)
    ensures var u := LogAcceptance(s, record); u == s.(journal := u.journal)
  {
    hide Log;
    var chat := ConversationStream(record.platform, record.chatId);
    var key, at := record.messageKey, record.createdAt;
    var sender := Origin(record.actorId, at, Some(key));
    var inbox, route := InboxStream(key), record.routeType;
    var a := Log(s, chat, None, sender, MessageReceived(key));
    LogKeepsTables(s, chat, None, sender, MessageReceived(key));
    var router, policy := Origin("inbox-router", at, Some(key)), Origin("inbox-policy", at, Some(key));
    var b := Log(a, inbox, record.threadId, router, OfInbox(RouteProposed(route, record.routeState)));
    LogKeepsTables(a, inbox, record.threadId, router, OfInbox(RouteProposed(route, record.routeState)));
    var c := if record.routeState.Confirmed?
      then Log(b, inbox, record.threadId, policy, OfInbox(RouteConfirmed(route))) else b;
    LogKeepsTables(b, inbox, record.threadId, policy, OfInbox(RouteConfirmed(route)));
    LogKeepsTables(c, chat, None, sender, ConversationAppended(key));
  }

  lemma ResolvedNoted(s: Store, record: InboxRecord, origin: Origin, event: InboxEvent, row: InboxRecord)
    requires OpenInv(s) && AgreeInv(s)
    ensures Noted(s, InboxLog(s, record, origin, event).(inbox := s.inbox[record.messageKey := row]))
  {
    hide OpenInv, AgreeInv, Sound, Confined, Insert, ActionsAdvance, LeasesAdvance, RowsAdvance;
    var logged := InboxLog(s, record, origin, event);
    var u := logged.(inbox := s.inbox[record.messageKey := row]);
    assert Sound(s, InboxLog(s, record, origin, event)) by {
      LogSound(s, InboxStream(record.messageKey), record.threadId, origin, OfInbox(event));
    }
    AsideSound(logged, u);
    SoundKeepsOpen(s, logged);
    SoundKeepsOpen(logged, u);
    assert s.journal <= logged.journal;
    SameRowsAgree(s, u);
  }

  lemma TaskEffectAgrees(s: Store, u: Store, task: TaskSubmission, ids: seq<Id>, rows: seq<Id>, now: Time)
    requires Noted(s, u) && FitSubmission(task) && ApplyEffect(u, Some(task), None, ids, rows, now).Ok?
    ensures AgreeInv(Committed(u, ApplyEffect(u, Some(task), None, ids, rows, now)))
  {
    hide OpenInv, AgreeInv, SubmitTask, FitSubmission, ApplyThreadUpdate;
    SubmitAgrees(u, task, now);
  }

  lemma AcceptAgrees(
    s: Store, message: InboxMessage, route: InboxRoute, project: string, agent: Artifact,
    seen: Option<ThreadProjection>, ids: seq<Id>, rows: seq<Id>, now: Time)
    requires OpenInv(s) && AgreeInv(s) && GoodRead(s, seen, ids)
    requires Accept(s, message, route, project, agent, seen, ids, rows, now).Ok?
    ensures AgreeInv(Committed(s, Accept(s, message, route, project, agent, seen, ids, rows, now)))
  {
    hide OpenInv, AgreeInv, LogAcceptance, GoodRead, PrepareTask, PrepareUpdate, ApplyThreadUpdate, SubmitTask,
      ValidAcceptance, SameInbound, NewRecord;
    var record := NewRecord(message, route, project);
    var stored := LogAcceptance(s, record).(inbox := s.inbox[record.messageKey := record]);
    AcceptedNoted(s, record);
    if record.messageKey !in s.inbox {
      if route.routeType.NewTask? {
        var objective := OrElse(route.taskText, Strip(message.text));
        var task := PrepareTask(record, objective, agent).value;
        PreparedTaskFits(record, objective, agent, task);
        assert AgreeInv(Committed(stored, ApplyEffect(stored, Some(task), None, ids, rows, now))) by {
          SubmitAgrees(stored, task, now);
        }
      } else if route.routeType.ThreadUpdate? && record.routeState.Confirmed? {
        var kind := if route.updateKind.Some? then route.updateKind.value else UpdateKind.Supplement;
        var sub := PrepareUpdate(seen, ids, record, route.taskText, kind, agent, message.createdAt).value;
        PreparedUpdateAgrees(s, stored, seen, ids, rows, record, route.taskText, kind, agent, message.createdAt, sub);
      } else {
        assert AgreeInv(stored);
      }
    }
  }

  /** The coordinator's effect on an open route, by decision. */
  lemma ResolveAgrees(
    s: Store, stored: InboxRecord, platform: string, actor: string, decision: Decision, target: Option<Id>,
    kind: Option<UpdateKind>, reason: string, agent: Artifact, seen: Option<ThreadProjection>, ids: seq<Id>,
    rows: seq<Id>, now: Time)
    requires OpenInv(s) && AgreeInv(s) && GoodRead(s, seen, ids)
    requires ResolveRoute(s, stored, platform, actor, decision, target, kind, reason, agent, seen, ids, rows, now).Ok?
    ensures AgreeInv(
      Committed(s, ResolveRoute(
        s, stored, platform, actor, decision, target, kind, reason, agent, seen, ids, rows, now)))
  {
    hide OpenInv, AgreeInv, GoodRead, PrepareTask, PrepareUpdate, ResolveInboxRoute, SameDecision;
    var resolver := platform + ":" + actor;
    var open := stored.(
      requiresConfirmation := false, updatedAt := now, resolvedBy := Some(resolver), resolutionReason := Some(reason));
    if stored.routeState.Proposed? {
      match decision
      case Expire => ResolvesToNothing(s, open.(routeState := RouteState.Expired), resolver, reason, ids, rows);
      case AsNewTask =>
        var record := open.(
          routeType := RouteType.NewTask, routeState := RouteState.Corrected,
          threadId := Some(ThreadOf(stored.messageKey)), updateKind := None);
        var task := PrepareTask(record, TextOf(stored.text), agent).value;
        ResolvesToTask(s, record, resolver, reason, TextOf(stored.text), agent, ids, rows, task);
      case ToThread =>
        var chosen := KindOf(kind, stored.updateKind);
        var record := open.(
          routeType := RouteType.ThreadUpdate, routeState := RouteState.Corrected, threadId := target,
          updateKind := Some(chosen));
        var sub := PrepareUpdate(seen, ids, record, TextOf(stored.text), chosen, agent, now).value;
        ResolvesToUpdate(s, record, resolver, reason, TextOf(stored.text), chosen, agent, seen, ids, rows, now, sub);
    }
  }

  lemma ResolvesToNothing(s: Store, record: InboxRecord, resolver: string, reason: string, ids: seq<Id>, rows: seq<Id>)
    requires OpenInv(s) && AgreeInv(s) && ResolveInboxRoute(s, record, resolver, reason, None, None, ids, rows).Ok?
    ensures AgreeInv(Committed(s, ResolveInboxRoute(s, record, resolver, reason, None, None, ids, rows)))
  {
    hide OpenInv, AgreeInv, InboxLog, ValidResolution, SameInbound, SameResolution, ApplyThreadUpdate, Resolved,
      SubmitTask;
    var stored := s.inbox[record.messageKey];
    var origin := Origin(resolver, record.updatedAt, Some(record.messageKey));
    var row := Resolved(stored, record, resolver, reason);
    if stored.routeState.Proposed? {
      ResolvedNoted(s, record, origin, RouteResolved(record.routeType, record.routeState), row);
    }
  }

  lemma ResolvesToTask(
    s: Store, record: InboxRecord, resolver: string, reason: string, objective: string, agent: Artifact, ids: seq<Id>,
    rows: seq<Id>, task: TaskSubmission)
    requires OpenInv(s) && AgreeInv(s) && PrepareTask(record, objective, agent) == Ok(task)
    requires ResolveInboxRoute(s, record, resolver, reason, Some(task), None, ids, rows).Ok?
    ensures AgreeInv(Committed(s, ResolveInboxRoute(s, record, resolver, reason, Some(task), None, ids, rows)))
  {
    hide OpenInv, AgreeInv, InboxLog, Noted, ValidResolution, SameInbound, SameResolution, PrepareTask, ApplyEffect;
    var stored := s.inbox[record.messageKey];
    var origin := Origin(resolver, record.updatedAt, Some(record.messageKey));
    var row := Resolved(stored, record, resolver, reason);
    if stored.routeState.Proposed? {
      var settled := InboxLog(s, record, origin, RouteResolved(record.routeType, record.routeState))
        .(inbox := s.inbox[record.messageKey := row]);
      ResolvedNoted(s, record, origin, RouteResolved(record.routeType, record.routeState), row);
      PreparedTaskFits(record, objective, agent, task);
      TaskEffectAgrees(s, settled, task, ids, rows, record.updatedAt);
    }
  }

  lemma ResolvesToUpdate(
    s: Store, record: InboxRecord, resolver: string, reason: string, text: string, kind: UpdateKind, agent: Artifact,
    seen: Option<ThreadProjection>, ids: seq<Id>, rows: seq<Id>, at: Time, sub: ThreadUpdateSubmission)
    requires OpenInv(s) && AgreeInv(s) && GoodRead(s, seen, ids)
    requires PrepareUpdate(seen, ids, record, text, kind, agent, at) == Ok(sub)
    requires ResolveInboxRoute(s, record, resolver, reason, None, Some(sub), ids, rows).Ok?
    ensures AgreeInv(Committed(s, ResolveInboxRoute(s, record, resolver, reason, None, Some(sub), ids, rows)))
  {
    hide OpenInv, AgreeInv, InboxLog, Noted, GoodRead, ValidResolution, SameInbound, SameResolution, PrepareUpdate,
      ApplyThreadUpdate, Resolved, SubmitTask;
    var stored := s.inbox[record.messageKey];
    var origin := Origin(resolver, record.updatedAt, Some(record.messageKey));
    var row := Resolved(stored, record, resolver, reason);
    if stored.routeState.Proposed? {
      var settled := InboxLog(s, record, origin, RouteResolved(record.routeType, record.routeState))
        .(inbox := s.inbox[record.messageKey := row]);
      ResolvedNoted(s, record, origin, RouteResolved(record.routeType, record.routeState), row);
      PreparedUpdateAgrees(s, settled, seen, ids, rows, record, text, kind, agent, at, sub);
    }
  }
}
