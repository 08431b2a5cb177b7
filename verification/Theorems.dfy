/** What the invariants mean for a reader: the guarantees of every reachable store. */
module Theorems {
  import opened Prelude
  import opened Vocabulary
  import opened Journal
  import opened Reducer
  import opened Store
  import opened Snapshots
  import opened Scheduler
  import opened Actions
  import opened Resources
  import opened Lifecycle
  import opened Codec
  import opened Integrity
  import opened Agreement
  import opened Books
  import opened Protocol

  /** Stores some run of the closed protocol can lead to. */
  ghost predicate Reached(s: Store) {
    exists start: Time, trace: Trace ::
      && Possible(EmptyStore(start), trace) && ClosedTrace(EmptyStore(start), trace)
      && s == Execute(EmptyStore(start), trace)
  }

  lemma ReachedIsClosed(s: Store)
    requires Reached(s)
    ensures ClosedInv(s)
  {
    hide ClosedInv, Possible, ClosedTrace, Execute;
    var start: Time, trace: Trace :|
      && Possible(EmptyStore(start), trace) && ClosedTrace(EmptyStore(start), trace)
      && s == Execute(EmptyStore(start), trace);
    EmptyIsClosed(start);
    EveryClosedRun(EmptyStore(start), trace);
  }

  lemma ClosedAgrees(s: Store)
    requires ClosedInv(s)
    ensures AgreeInv(s) && OpenInv(s)
  {
    hide AgreeInv, DeliveryInv, InboxInv, OpenInv;
  }

  // ---------------------------------------------------------------- Thread, Run and job

  /** The Run that has not ended is the newest and lies on the current branch; every other has ended. */
  ghost predicate OneOpen(p: ThreadProjection) {
    forall r :: r in p.runs && !Terminal(p.runs[r].state) ==>
      && p.runs[r].branchId == p.currentBranch
      && forall other :: other in p.runs && other != r ==> Terminal(p.runs[other].state) && Earlier(p, other, r)
  }

  /** Queued or running exactly when one of its Runs is. */
  ghost predicate MirrorsRuns(p: ThreadProjection) {
    && (p.actual.Queued? <==> exists r :: r in p.runs && RunAt(p, r).state.Queued?)
    && (p.actual.Running? <==> exists r :: r in p.runs && RunAt(p, r).state.Running?)
    && forall r :: r in p.runs ==>
         RunAt(p, r).state.Queued? || RunAt(p, r).state.Running? || Ended(RunAt(p, r).state)
  }

  /** In every Thread at most one Run has not ended; it is the newest and lies on the current branch. */
  lemma OneOpenRun(s: Store)
    requires Reached(s)
    ensures forall p :: p in s.threads.Values ==> OneOpen(p)
  {
    hide Reached, ClosedInv, AgreeInv, Mid, Coupled, OpenInv, Skeleton;
    ReachedIsClosed(s);
    ClosedAgrees(s);
    forall p | p in s.threads.Values
      ensures OneOpen(p)
    {
      var t :| t in s.threads && s.threads[t] == p;
      var l := Enter(s, t);
      MidLed(s, t, l);
      assert OneOpen(p) && MirrorsRuns(p);
    }
  }

  lemma MidLed(s: Store, t: Id, l: Id)
    requires Mid(s, t, l)
    ensures t in s.threads && Led(ThreadAt(s, t), l) && Skeleton(ThreadAt(s, t))
  {
    hide AgreesOn, Coupled, Led, Skeleton;
  }

  /** Every Thread is queued or running exactly when one of its Runs is. */
  lemma ThreadMirrorsRun(s: Store)
    requires Reached(s)
    ensures forall p :: p in s.threads.Values ==> MirrorsRuns(p)
  {
    hide Reached, ClosedInv, AgreeInv, Mid, Coupled, OpenInv, Skeleton;
    ReachedIsClosed(s);
    ClosedAgrees(s);
    forall p | p in s.threads.Values
      ensures MirrorsRuns(p)
    {
      var t :| t in s.threads && s.threads[t] == p;
      var l := Enter(s, t);
      MidLed(s, t, l);
      assert OneOpen(p) && MirrorsRuns(p);
    }
  }

  /** A Run's state and its job's state agree. */
  predicate JobMatches(run: RunState, job: SchedulerJob) {
    && (job.state.Queued? ==> run.Queued?)
    && (job.state.Claimed? ==> run.Queued? || run.Running?)
    && (job.state.Completed? <==> run.Completed?)
    && (job.state.Cancelled? ==> run.Cancelled?)
    && (Terminal(run) ==> job.state.Completed? || job.state.Failed? || job.state.Cancelled?)
    && (job.state.Failed? && !Terminal(run) ==> job.attempts == job.maxAttempts)
  }

  ghost predicate JobsMatchRuns(s: Store) {
    forall r :: r in s.jobs ==>
      && JobAt(s, r).threadId in s.threads && r in ThreadAt(s, JobAt(s, r).threadId).runs
      && JobMatches(RunAt(ThreadAt(s, JobAt(s, r).threadId), r).state, JobAt(s, r))
  }

  /** Every job agrees with its Run; an open Run has a live job unless its attempts are used up. */
  lemma JobMirrorsRun(s: Store)
    requires Reached(s)
    ensures JobsMatchRuns(s)
  {
    hide Reached, ClosedInv, AgreeInv, ClaimNextRun, Tally;
    ReachedIsClosed(s);
    ClosedAgrees(s);
    forall r | r in s.jobs
      ensures s.jobs[r].threadId in s.threads && r in s.threads[s.jobs[r].threadId].runs
      ensures JobMatches(s.threads[s.jobs[r].threadId].runs[r].state, s.jobs[r])
    {
      OwnedRun(s, r);
      assert ClaimsIssued(s.journal, r) == if r in s.jobs then s.jobs[r].token else 0;
    }
  }

  ghost predicate EveryRunQueued(s: Store) {
    forall t :: t in s.threads ==> forall r :: r in ThreadAt(s, t).runs ==> r in s.jobs && JobAt(s, r).threadId == t
  }

  /** Every Run has its job. */
  lemma EveryRunHasJob(s: Store)
    requires Reached(s)
    ensures EveryRunQueued(s)
  {
    hide Reached, ClosedInv, ThreadOK, Matches, OpenInv;
    ReachedIsClosed(s);
    ClosedAgrees(s);
    forall t | t in s.threads
      ensures AgreesOn(s, t)
    {
    }
    forall t, r | t in s.threads && r in s.threads[t].runs
      ensures r in s.jobs && s.jobs[r].threadId == t
    {
      assert AgreesOn(s, t) && Coupled(s, t, r);
    }
  }

  // ---------------------------------------------------------------- lineage

  /** Following the supersedes links from b leads to a. */
  ghost predicate Descends(p: ThreadProjection, b: Id, a: Id)
    decreases RunAt(p, b).createdSequence
  {
    || a == b
    || (var before := RunAt(p, b).supersedes;
        && b in p.runs && before.Some? && before.value in p.runs && Earlier(p, before.value, b)
        && Descends(p, before.value, a))
  }

  /** The links form one chain: from any Run every older Run is reached, and nothing else. */
  lemma {:induction false} LineageIsOneChain(p: ThreadProjection, b: Id, a: Id)
    requires LineageOK(p) && a in p.runs && b in p.runs
    ensures Descends(p, b, a) <==> a == b || Earlier(p, a, b)
    decreases RunAt(p, b).createdSequence
  {
    assert JustBefore(p, p.runs[b].supersedes, b);
    var before := p.runs[b].supersedes;
    if a != b && before.Some? {
      LineageIsOneChain(p, before.value, a);
    }
  }

  ghost predicate OneChain(p: ThreadProjection) {
    && (forall a, b :: a in p.runs && b in p.runs ==> (Descends(p, b, a) <==> a == b || Earlier(p, a, b)))
    && (forall b :: b in p.runs ==>
          (p.runs[b].supersedes.None? <==> forall x :: x in p.runs && x != b ==> Earlier(p, b, x)))
  }

  /** In every Thread the supersedes links are one chain through all Runs, newest to oldest. */
  lemma ReachedLineage(s: Store)
    requires Reached(s)
    ensures forall p :: p in s.threads.Values ==> OneChain(p)
  {
    hide Reached, ContextsOK, BranchesOK, KeysOK, SingleWriter;
    forall p | p in s.threads.Values
      ensures OneChain(p)
    {
      ReachedSkeleton(s, p);
      forall a, b | a in p.runs && b in p.runs
        ensures Descends(p, b, a) <==> a == b || Earlier(p, a, b)
      {
        LineageIsOneChain(p, b, a);
      }
      forall b | b in p.runs
        ensures p.runs[b].supersedes.None? <==> forall x :: x in p.runs && x != b ==> Earlier(p, b, x)
      {
        assert JustBefore(p, p.runs[b].supersedes, b);
      }
    }
  }

  /** Every Thread of a reached store has the skeleton, and its superseding Runs are bound. */
  lemma ReachedSkeleton(s: Store, p: ThreadProjection)
    requires Reached(s) && p in s.threads.Values
    ensures Skeleton(p) && SupersedingBound(p)
  {
    hide Reached, ClosedInv, AgreeInv, Skeleton, Latest, Mirrors, Coupled, Ended, OpenInv;
    ReachedIsClosed(s);
    ClosedAgrees(s);
    var t :| t in s.threads && s.threads[t] == p;
    var l := Enter(s, t);
    assert t in s.threads && Led(ThreadAt(s, t), l) && Skeleton(ThreadAt(s, t));
  }

  ghost predicate SupersedingBound(p: ThreadProjection) {
    forall r :: r in p.runs && RunAt(p, r).supersedes.Some? ==> Bound(RunAt(p, r))
  }

  /** The number of links from b back to a. */
  ghost function Hops(p: ThreadProjection, b: Id, a: Id): nat
    decreases RunAt(p, b).createdSequence
  {
    var before := RunAt(p, b).supersedes;
    if a == b || b !in p.runs || before.None? || before.value !in p.runs || !Earlier(p, before.value, b) then 0
    else 1 + Hops(p, before.value, a)
  }

  /** b's context starts with a's items, in order, has one more for each Run in between, and its last
      item is of the message b's update came with. */
  ghost predicate Extends(p: ThreadProjection, b: Id, a: Id) {
    var earlier, later := ItemsOf(RunAt(p, a).context), ItemsOf(RunAt(p, b).context);
    && |later| == |earlier| + Hops(p, b, a) && earlier <= later && Increasing(later)
    && (RunAt(p, b).supersedes.Some? ==> later != [] && b == UpdateRunOf(later[|later| - 1].sourceRef))
  }

  /** b's task keeps what a's asked for: its acceptance criteria, its constraints, in order and with at most one more
      for each Run in between, and its inputs. */
  ghost predicate Keeps(p: ThreadProjection, b: Id, a: Id) {
    RunAt(p, a).task.Some? && RunAt(p, b).task.Some? ==>
      && RunAt(p, a).task.value.TaskArtifact? && RunAt(p, b).task.value.TaskArtifact?
      && var earlier, later := RunAt(p, a).task.value.task, RunAt(p, b).task.value.task;
      && later.taskId == earlier.taskId && later.acceptanceCriteria == earlier.acceptanceCriteria
      && earlier.constraints <= later.constraints
      && |later.constraints| <= |earlier.constraints| + Hops(p, b, a)
      && forall x :: x in earlier.inputs ==> x in later.inputs
  }

  ghost predicate TasksKept(p: ThreadProjection) {
    forall a, b :: a in p.runs && b in p.runs && Descends(p, b, a) ==> Keeps(p, b, a)
  }

  /** Along the chain nothing a task asked for is lost. */
  lemma {:induction false} TaskKeptAlongChain(p: ThreadProjection, b: Id, a: Id)
    requires LineageOK(p) && ContextsOK(p) && SupersedingBound(p)
    requires a in p.runs && b in p.runs && Descends(p, b, a)
    ensures Keeps(p, b, a)
    decreases RunAt(p, b).createdSequence
  {
    assert InputsOK(p.runs[b]) && InputsOK(p.runs[a]) && ContextGrows(p, b);
    if a != b {
      var before := p.runs[b].supersedes.value;
      assert JustBefore(p, p.runs[b].supersedes, b);
      TaskKeptAlongChain(p, before, a);
      assert TaskGrows(RunAt(p, before).task, RunAt(p, b).task);
      assert before != a ==> RunAt(p, before).task.Some?;
    }
  }

  /** In every Thread of every reached store each Run's task keeps what the Runs it goes on from were asked. */
  lemma ReachedTasks(s: Store)
    requires Reached(s)
    ensures forall p :: p in s.threads.Values ==> TasksKept(p)
  {
    hide Reached, LineageOK, ContextsOK, BranchesOK, KeysOK, SingleWriter, SupersedingBound, Descends, Keeps;
    forall p | p in s.threads.Values
      ensures TasksKept(p)
    {
      ReachedSkeleton(s, p);
      forall a, b | a in p.runs && b in p.runs && Descends(p, b, a)
        ensures Keeps(p, b, a)
      {
        TaskKeptAlongChain(p, b, a);
      }
    }
  }

  ghost predicate ContextsGrow(p: ThreadProjection) {
    forall a, b :: a in p.runs && b in p.runs && Descends(p, b, a) ==> Extends(p, b, a)
  }

  /** Along the chain a context only grows. */
  lemma {:induction false} ContextGrowsAlongChain(p: ThreadProjection, b: Id, a: Id)
    requires LineageOK(p) && ContextsOK(p) && SupersedingBound(p)
    requires a in p.runs && b in p.runs && Descends(p, b, a)
    ensures Extends(p, b, a)
    decreases RunAt(p, b).createdSequence
  {
    assert InputsOK(p.runs[b]) && ContextGrows(p, b);
    if p.runs[b].supersedes.Some? {
      assert JustBefore(p, p.runs[b].supersedes, b);
    }
    if a != b {
      ContextGrowsAlongChain(p, p.runs[b].supersedes.value, a);
    }
  }

  /** In every Thread the contexts grow along the chain, one item for each update. */
  lemma ReachedContexts(s: Store)
    requires Reached(s)
    ensures forall p :: p in s.threads.Values ==> ContextsGrow(p)
  {
    hide Reached, LineageOK, ContextsOK, BranchesOK, KeysOK, SingleWriter, SupersedingBound, Descends, Extends;
    forall p | p in s.threads.Values
      ensures ContextsGrow(p)
    {
      ReachedSkeleton(s, p);
      forall a, b | a in p.runs && b in p.runs && Descends(p, b, a)
        ensures Extends(p, b, a)
      {
        ContextGrowsAlongChain(p, b, a);
      }
    }
  }

  // ---------------------------------------------------------------- branches

  ghost predicate BranchTree(p: ThreadProjection) {
    forall b :: b in p.branches ==> ForkOK(p, b)
  }

  /** Where a branch's fork chain ends. */
  ghost function RootOf(p: ThreadProjection, b: Id): Id
    requires BranchTree(p) && b in p.branches
    decreases Base(p.branches[b]) + 1
  {
    assert ForkOK(p, b);
    if p.branches[b].forkedFrom.None? then b
    else
      var parent := p.branches[b].forkedFrom.value;
      assert ForkOK(p, parent);
      RootOf(p, parent)
  }

  lemma {:induction false} RootIsRoot(p: ThreadProjection, b: Id)
    requires BranchTree(p) && b in p.branches
    ensures RootOf(p, b) in p.branches && p.branches[RootOf(p, b)].forkedFrom.None?
    decreases Base(p.branches[b]) + 1
  {
    assert ForkOK(p, b);
    if p.branches[b].forkedFrom.Some? {
      RootIsRoot(p, p.branches[b].forkedFrom.value);
    }
  }

  /** Every fork chain ends at the same root, and exactly the current branch is selected. */
  ghost predicate OneRoot(p: ThreadProjection) {
    && BranchTree(p)
    && (forall a, b :: a in p.branches && b in p.branches ==> RootOf(p, a) == RootOf(p, b))
    && (forall a :: a in p.branches ==> (p.branches[a].status.Selected? <==> a == p.currentBranch))
    && (p.branches != map[] ==> p.currentBranch in p.branches)
  }

  lemma ReachedBranches(s: Store)
    requires Reached(s)
    ensures forall p :: p in s.threads.Values ==> OneRoot(p)
  {
    hide Reached, LineageOK, ContextsOK, KeysOK, SingleWriter;
    forall p | p in s.threads.Values
      ensures OneRoot(p)
    {
      ReachedSkeleton(s, p);
      forall a, b | a in p.branches && b in p.branches
        ensures RootOf(p, a) == RootOf(p, b)
      {
        RootIsRoot(p, a);
        RootIsRoot(p, b);
      }
    }
  }

  // ---------------------------------------------------------------- deliveries and messages

  /** Every Thread's deliveries are versions 1 to n, each pointing at the one before, and the Thread names
      the last of them. */
  ghost predicate DeliveriesChained(s: Store) {
    forall t :: t in s.threads ==>
      && Linked(Chain(s.deliveries, t))
      && ThreadAt(s, t).latestDelivery == LastOf(Chain(s.deliveries, t))
  }

  lemma ReachedDeliveries(s: Store)
    requires Reached(s)
    ensures DeliveriesChained(s)
  {
    hide Reached, ClosedInv, Backed, Announces, DistinctRuns, Chain, Linked;
    ReachedIsClosed(s);
    ClosedDelivers(s);
  }

  lemma ClosedDelivers(s: Store)
    requires ClosedInv(s)
    ensures DeliveryInv(s)
  {
    hide AgreeInv, DeliveryInv, InboxInv, OpenInv;
  }

  /** Deliveries and notices correspond one to one, and each delivery is of a completed Run of its own
      whose output it is. */
  ghost predicate OneToOne(s: Store) {
    && |s.outbox| == |s.deliveries|
    && (forall i :: 0 <= i < |s.deliveries| ==>
          Backed(s, s.deliveries[i]) && s.outbox[i].deliveryId == s.deliveries[i].deliveryId)
    && (forall i, j :: 0 <= i < j < |s.deliveries| ==>
          s.deliveries[i].runId != s.deliveries[j].runId && s.outbox[i].deliveryId != s.outbox[j].deliveryId)
  }

  lemma DeliveryPerRun(s: Store)
    requires Reached(s)
    ensures OneToOne(s)
  {
    hide Reached, ClosedInv, Chain, Linked, LastOf;
    ReachedIsClosed(s);
    ClosedDelivers(s);
    forall i, j | 0 <= i < j < |s.deliveries|
      ensures s.deliveries[i].runId != s.deliveries[j].runId
      ensures s.outbox[i].deliveryId != s.outbox[j].deliveryId
    {
      assert Backed(s, s.deliveries[i]) && Backed(s, s.deliveries[j]);
      assert Announces(s.outbox[i], s.deliveries[i]) && Announces(s.outbox[j], s.deliveries[j]);
    }
    forall i | 0 <= i < |s.deliveries|
      ensures s.outbox[i].deliveryId == s.deliveries[i].deliveryId
    {
      assert Announces(s.outbox[i], s.deliveries[i]);
    }
  }

  /** A message owns exactly one durable effect once its route is a confirmed or corrected task or
      update, and none before or otherwise; it is recorded once and leaves PROPOSED at most once. */
  ghost predicate OneEffect(s: Store, key: Id) {
    && Tally(s.journal, key, AnEffect) == (if key in s.inbox && Effective(Row(s.inbox, key)) then 1 else 0)
    && Tally(s.journal, key, AProposal) == (if key in s.inbox then 1 else 0)
    && Tally(s.journal, key, ADeparture) <= 1
  }

  lemma OneEffectPerMessage(s: Store, key: Id)
    requires Reached(s)
    ensures OneEffect(s, key)
  {
    hide Reached, ClosedInv, Tally, Effective;
    ReachedIsClosed(s);
    ClosedCounts(s);
    assert OnceFor(s, key);
  }

  lemma ClosedCounts(s: Store)
    requires ClosedInv(s)
    ensures InboxInv(s)
  {
    hide AgreeInv, DeliveryInv, InboxInv, OpenInv;
  }

  // ---------------------------------------------------------------- every caller

  /** Stores any run can lead to, raw calls included. */
  ghost predicate ReachedByAny(s: Store) {
    exists start: Time, trace: Trace ::
      Possible(EmptyStore(start), trace) && s == Execute(EmptyStore(start), trace)
  }

  lemma AnyIsSound(s: Store)
    requires ReachedByAny(s)
    ensures OpenInv(s)
  {
    hide OpenInv, Possible, Execute, Advance;
    var start: Time, trace: Trace :|
      Possible(EmptyStore(start), trace) && s == Execute(EmptyStore(start), trace);
    EmptyIsSound(start);
    EveryRunSound(EmptyStore(start), trace);
  }

  /** The stored Thread is the replay of its stream, and its revision is the last number of that gap-free
      stream. */
  ghost predicate Replayed(s: Store, t: Id) {
    && Replay(s.journal, t) == Ok(Lookup(s.threads, t))
    && (t in s.threads ==>
          ThreadAt(s, t).revision == LastSequence(s.journal, ThreadStream(t)) == Count(s.journal, ThreadStream(t)))
  }

  lemma ReplayEqualsStorage(s: Store, t: Id)
    requires ReachedByAny(s)
    ensures Replayed(s, t)
  {
    hide ReachedByAny, SchedulerInv, ActionsInv, ResourcesInv, Replay;
    AnyIsSound(s);
    assert Replay(s.journal, t) == Ok(Lookup(s.threads, t));
    RevisionCountsEvents(s.journal, t);
    LastSequenceIsCount(s.journal, ThreadStream(t));
  }

  /** However its tuples are listed, the Thread's stored form reads back as the Thread. */
  ghost predicate ReadsBack(p: ThreadProjection) {
    forall runs, branches :: ListsOnce(runs, p.runs.Keys) && ListsOnce(branches, p.branches.Keys) ==>
      Decode(Encode(p, runs, branches)) == Ok(p)
  }

  lemma StorageRoundTrips(s: Store)
    requires ReachedByAny(s)
    ensures forall p :: p in s.threads.Values ==> ReadsBack(p)
  {
    hide ReachedByAny, ReadsBack, Replayed;
    forall p | p in s.threads.Values
      ensures ReadsBack(p)
    {
      var t :| t in s.threads && s.threads[t] == p;
      ReplayEqualsStorage(s, t);
      ReplayedReadsBack(s, t);
    }
  }

  lemma ReplayedReadsBack(s: Store, t: Id)
    requires Replayed(s, t) && t in s.threads
    ensures ReadsBack(ThreadAt(s, t))
  {
    hide ListsOnce, Encode, Decode, Replay;
    var p := s.threads[t];
    ReplayStorable(s.journal, t, p);
    forall runs, branches | ListsOnce(runs, p.runs.Keys) && ListsOnce(branches, p.branches.Keys)
      ensures Decode(Encode(p, runs, branches)) == Ok(p)
    {
      RoundTripIff(p, runs, branches);
    }
  }

  /** A job's counters agree with the claims its journal has issued. */
  ghost predicate RowCounted(s: Store, r: Id) {
    r in s.jobs ==>
      && ClaimsIssued(s.journal, r) == JobAt(s, r).token == JobAt(s, r).attempts <= JobAt(s, r).maxAttempts
      && (JobAt(s, r).state.Queued? ==> JobAt(s, r).attempts < JobAt(s, r).maxAttempts)
      && (JobAt(s, r).state.Claimed? <==> JobAt(s, r).lease.Some?)
  }

  /** The scheduler table is the fold of its journal, and its counters agree with it. */
  lemma SchedulerEqualsJournal(s: Store, r: Id)
    requires ReachedByAny(s)
    ensures Lookup(s.jobs, r) == ReplayJob(s.journal, r) && RowCounted(s, r)
  {
    hide ReachedByAny, Faithful, ActionsInv, ResourcesInv, ClaimsNumbered, OneLeasePerThread, ClaimsIssued,
      ReplayJob;
    AnyIsSound(s);
    assert ReplayJob(s.journal, r) == Lookup(s.jobs, r);
    assert ClaimsIssued(s.journal, r) == if r in s.jobs then s.jobs[r].token else 0;
  }

  /** No two jobs of a Thread hold an unexpired claim. */
  ghost predicate OneClaimPerThread(s: Store) {
    forall r, other :: r in s.jobs && other in s.jobs && JobAt(s, r).threadId == JobAt(s, other).threadId ==>
      HoldsLease(JobAt(s, r), s.clock) && HoldsLease(JobAt(s, other), s.clock) ==> r == other
  }

  lemma ThreadsClaimedOnce(s: Store)
    requires ReachedByAny(s)
    ensures OneClaimPerThread(s)
  {
    hide ReachedByAny, OpenInv, JobsReplayed, ClaimsNumbered, ActionsInv, ClaimNextRun, TokensCountClaims;
    AnyIsSound(s);
    OpenSchedules(s);
  }

  /** Along any run the claims issued stay within the attempt limits, and what is left of the limits
      of the jobs there are never grows again. */
  lemma AttemptsAreBounded(s: Store, trace: Trace)
    requires ReachedByAny(s) && Possible(s, trace)
    ensures Sum(s.jobs.Keys, Issued(s)) <= Sum(s.jobs.Keys, Allowed(s))
    ensures Remaining(Execute(s, trace), s.jobs.Keys) <= Remaining(s, s.jobs.Keys)
  {
    hide ReachedByAny, Execute, Possible, OpenInv, SchedulerInv, Remaining, ActionsInv, ActionsAdvance, ClaimsIssued,
      LeasesAdvance, RowsAdvance, SortBy;
    AnyIsSound(s);
    EveryRunSound(s, trace);
    OpenSchedules(s);
    OpenSchedules(Execute(s, trace));
    assert Sum(s.jobs.Keys, Issued(s)) <= Sum(s.jobs.Keys, Allowed(s)) by {
      forall r | r in s.jobs.Keys
        ensures Issued(s)(r) <= Allowed(s)(r)
      {
        RowBudget(s, r);
      }
      SumAtMost(s.jobs.Keys, Issued(s), Allowed(s));
    }
    assert RowsAdvance(s, Execute(s, trace));
    BudgetNeverGrows(s, Execute(s, trace));
  }

  lemma OpenSchedules(s: Store)
    requires OpenInv(s)
    ensures SchedulerInv(s) && ActionsInv(s)
  {
    hide ActionsInv, Faithful, ResourcesInv, SchedulerInv;
  }

  lemma AdvanceRows(s: Store, t: Store)
    requires Advance(s, t)
    ensures RowsAdvance(s, t)
  {
  }

  /** Executions are the NOT_FOUND receipts, and one more unless the intent waits or is cancelled; the
      token counts all claims; an intent has succeeded, or failed, exactly when one receipt says so. */
  ghost predicate Accounted(s: Store, i: Id) {
    i in s.intents ==>
      var l := LedgerOf(s.journal, i);
      var waiting := Row(s.intents, i).status.Pending? || Row(s.intents, i).status.Cancelled?;
      && l.executions == CountOutcome(s.receipts, i, ReceiptOutcome.NotFound) + (if waiting then 0 else 1)
      && Row(s.intents, i).token == l.executions + l.reconciliations
      && CountOutcome(s.receipts, i, ReceiptOutcome.Succeeded) == (if Row(s.intents, i).status.Succeeded? then 1 else 0)
      && CountOutcome(s.receipts, i, ReceiptOutcome.Failed) == (if Row(s.intents, i).status.Failed? then 1 else 0)
  }

  /** Every external effect is accounted for. */
  lemma EffectsAddUp(s: Store, i: Id)
    requires ReachedByAny(s)
    ensures Accounted(s, i)
  {
    hide ReachedByAny, OpenInv, ActionsInv, LedgerOf, CountOutcome, SchedulerInv, Tally;
    AnyIsSound(s);
    OpenSchedules(s);
    if i in s.intents {
      ExactAccounting(s, i);
    }
  }

  /** A later execution claim of the intent waits, after a lapse, for a reconciliation claim and its
      NOT_FOUND, and, after an earlier execution claim, for a NOT_FOUND. */
  ghost predicate Informed(journal: seq<Event>, intent: Id) {
    forall first, second :: 0 <= first < second < |journal| && IsExecution(journal[second], intent) ==>
      && (IsLapse(journal[first], intent) ==> Reconciled(journal, intent, first, second))
      && (IsExecution(journal[first], intent) ==> NotFoundBetween(journal, intent, first, second))
  }

  /** No blind retry. */
  lemma RetriesAreInformed(s: Store, intent: Id)
    requires ReachedByAny(s)
    ensures Informed(s.journal, intent)
  {
    hide ReachedByAny, OpenInv, BooksOK, GateOK, SchedulerInv;
    AnyIsSound(s);
    OpenSchedules(s);
    forall first, second | 0 <= first < second < |s.journal| && IsExecution(s.journal[second], intent)
      ensures IsLapse(s.journal[first], intent) ==> Reconciled(s.journal, intent, first, second)
      ensures IsExecution(s.journal[first], intent) ==> NotFoundBetween(s.journal, intent, first, second)
    {
      if IsLapse(s.journal[first], intent) {
        NoBlindRetry(s.journal, intent, first, second);
      }
      if IsExecution(s.journal[first], intent) {
        EffectsAreSeparated(s.journal, intent, first, second);
      }
    }
  }

  /** Every write under the claim fails: start, heartbeat, checkpoint, both settlements, both step writes
      and the delivery, whatever their arguments. */
  ghost predicate FencedOut(s: Store, claim: WorkerClaim, now: Time) {
    && !Live(s, claim, now)
    && StartClaimedRun(s, claim, now) == Err(StaleLease)
    && (forall seconds :: HeartbeatRun(s, claim, seconds, now) == Err(StaleLease))
    && (forall checkpoint :: RecordClaimedCheckpoint(s, claim, checkpoint, now) == Err(StaleLease))
    && (forall succeeded, error, retryable, delay ::
          FinishRunClaim(s, claim, succeeded, error, retryable, delay, now) == Err(StaleLease))
    && (forall key, version, outcome :: FinishClaimedExecution(s, claim, key, version, outcome, now).Err?)
    && (forall step, ordinal, kind, key, version, inputs ::
          BeginClaimedStep(s, claim, step, ordinal, kind, key, version, inputs, now).Err?)
    && (forall step, outputs, report, code ::
          FinishClaimedStep(s, claim, step, outputs, report, code, now) == Err(StaleLease))
    && (forall key, primary, report, summary, supporting ::
          FinalizeDelivery(s, claim, key, primary, report, summary, supporting, now) == Err(StaleLease))
  }

  /** A claim that is over stays over: no fenced write accepts it at any later point of any run. */
  lemma SpentClaimsStaySpent(s: Store, trace: Trace, claim: WorkerClaim, now: Time)
    requires ReachedByAny(s) && Possible(s, trace) && Spent(s, claim)
    requires Execute(s, trace).clock <= now
    ensures Spent(Execute(s, trace), claim) && FencedOut(Execute(s, trace), claim, now)
  {
    hide ReachedByAny, Execute, Possible, OpenInv;
    AnyIsSound(s);
    EveryRunSound(s, trace);
    SpentForever(s, Execute(s, trace), claim, now);
    assert FencedOut(Execute(s, trace), claim, now);
  }

  /** A lease that is over is refused at any later point of any run. */
  lemma StaleLeasesStayStale(s: Store, trace: Trace, lease: ResourceLease, now: Time, seconds: int, actor: string)
    requires ReachedByAny(s) && Possible(s, trace) && Execute(s, trace).clock <= now
    requires lease.leaseId in s.leases && !LiveResource(s, lease, s.clock)
    ensures RenewResource(Execute(s, trace), lease, seconds, actor, now) == Err(StaleLease)
    ensures ReleaseResource(Execute(s, trace), lease, actor, now) == Err(StaleLease)
  {
    hide ReachedByAny, Execute, Possible, OpenInv, ActionsAdvance, RowsAdvance, WriteLease;
    AnyIsSound(s);
    EveryRunSound(s, trace);
    assert !LiveResource(Execute(s, trace), lease, now);
  }

  /** At any moment two unexpired leases of one resource are both readers. */
  lemma SharedMeansReaders(s: Store)
    requires ReachedByAny(s)
    ensures ReadersOrOneWriter(s)
  {
    hide ReachedByAny, Faithful, SchedulerInv, ActionsInv, ReadersOrOneWriter;
    AnyIsSound(s);
  }

  /** An intent that needs approval is past waiting only with one; a refused approval means a cancelled
      intent, a pending one a waiting or cancelled intent. */
  ghost predicate Gated(s: Store, i: Id) {
    i in s.intents ==>
      && (Row(s.intents, i).requiresApproval
          && !Row(s.intents, i).status.Pending? && !Row(s.intents, i).status.Cancelled? ==>
            IsApproved(s, i))
      && (i in s.approvalOf && Row(s.approvalOf, i) in s.approvals ==>
            var status := Row(s.approvals, Row(s.approvalOf, i)).status;
            && (status.Denied? || status.Expired? || status.Cancelled? ==> Row(s.intents, i).status.Cancelled?)
            && (status.Pending? ==> Row(s.intents, i).status.Pending? || Row(s.intents, i).status.Cancelled?))
  }

  /** What needs approval is never executed without it. */
  lemma ApprovalGate(s: Store, i: Id)
    requires ReachedByAny(s)
    ensures Gated(s, i)
  {
    hide ReachedByAny, Faithful, SchedulerInv, ResourcesInv, BooksOK, LegalJournal, Tally;
    AnyIsSound(s);
    assert GateOK(s, i);
  }

  predicate Closing(status: ActionStatus) {
    status.Cancelled? || status.Succeeded? || status.Failed?
  }

  /** From s to t no resolved approval and no dropped or settled intent has changed. */
  ghost predicate Kept(s: Store, t: Store) {
    && (forall a :: a in s.approvals && !Row(s.approvals, a).status.Pending? ==>
          a in t.approvals && Row(t.approvals, a).status == Row(s.approvals, a).status)
    && (forall i :: i in s.intents && Closing(Row(s.intents, i).status) ==>
          i in t.intents && Row(t.intents, i).status == Row(s.intents, i).status)
  }

  /** Decisions are final. */
  lemma DecisionsAreFinal(s: Store, trace: Trace)
    requires ReachedByAny(s) && Possible(s, trace)
    ensures Kept(s, Execute(s, trace))
  {
    hide ReachedByAny, Execute, Possible, OpenInv, RowsAdvance, LeasesAdvance;
    AnyIsSound(s);
    EveryRunSound(s, trace);
  }

  /** The event issued a claim for r that still passes the fence. */
  ghost predicate StillLive(s: Store, i: nat, r: Id, now: Time) {
    && i < |s.journal| && IssuesClaim(s.journal[i], r) && s.journal[i].thread.Some?
    && Live(s, IssuedClaim(s.journal[i]), now)
  }

  ghost predicate NewestClaim(s: Store, i: nat, r: Id) {
    i < |s.journal| && IssuesClaim(s.journal[i], r) && s.journal[i].body.job.token == ClaimsIssued(s.journal, r)
  }

  /** Of all claims ever issued for a Run at most one passes the fence, and it is the newest. */
  lemma OneLiveClaim(s: Store, i: nat, j: nat, r: Id, now: Time)
    requires ReachedByAny(s) && StillLive(s, i, r, now) && StillLive(s, j, r, now)
    ensures i == j && NewestClaim(s, i, r)
  {
    hide ReachedByAny, OpenInv, ActionsInv;
    AnyIsSound(s);
    OpenSchedules(s);
    if i < j {
      LaterClaimLargerToken(s.journal, i, j, r);
    } else if j < i {
      LaterClaimLargerToken(s.journal, j, i, r);
    }
  }

  // =========================================================================== ended runs
  // Neither a claim nor a receipt asks what became of an action's Run.

  /** The intent waits, with the approval it needs. */
  ghost predicate Claimable(s: Store, i: Id) {
    i in s.intents && Row(s.intents, i).status.Pending? && (Row(s.intents, i).requiresApproval ==> IsApproved(s, i))
  }

  ghost predicate RunEnded(s: Store, i: Id) {
    && i in s.intents && Row(s.intents, i).threadId in s.threads
    && Row(s.intents, i).runId in ThreadAt(s, Row(s.intents, i).threadId).runs
    && Terminal(RunAt(ThreadAt(s, Row(s.intents, i).threadId), Row(s.intents, i).runId).state)
  }

  /** An execution claim is granted exactly on a waiting, approved intent, whatever became of its Run. */
  lemma ExecutionClaimIff(s: Store, i: Id, worker: string, leaseId: string, seconds: int, now: Time)
    ensures ClaimAction(s, i, worker, leaseId, seconds, false, now).Ok? <==> seconds >= 1 && Claimable(s, i)
  {
    hide Insert;
  }

  /** A Run ended by settlement leaves its waiting intents as claimable as they were. */
  lemma SettlementKeepsClaimable(
    s: Store, claim: WorkerClaim, executorKey: string, version: string, outcome: Outcome, now: Time, i: Id)
    ensures var u := Committed(s, FinishClaimedExecution(s, claim, executorKey, version, outcome, now));
      Claimable(u, i) == Claimable(s, i)
  {
    hide SettleThread, SettleJob, NonBlank, SettlementOf, OutputOf, ErrorOf, LastErrorOf, Sound, Sequenced;
    if FinishClaimedExecution(s, claim, executorKey, version, outcome, now).Ok? {
      var how, origin := SettlementOf(outcome, s.jobs[claim.runId], now), Origin(claim.worker, now, None);
      var ended := SettleThread(s, claim, how, OutputOf(outcome), ErrorOf(outcome), origin).value;
      SettleThreadSound(s, claim, how, OutputOf(outcome), ErrorOf(outcome), origin);
      assert Quiet(s, ended, Jobs);
      SettleJobConfined(ended, claim.runId, how, LastErrorOf(outcome), origin);
      assert Quiet(s, ended, Area.Actions);
      assert Quiet(ended, SettleJob(ended, claim.runId, how, LastErrorOf(outcome), origin), Area.Actions);
    }
  }

  /** NOT_FOUND makes a claimed intent claimable again, its Run ended or not. */
  lemma NotFoundReopens(
    s: Store, claim: ActionClaim, provider: string, response: Option<Artifact>, receiptId: Id, now: Time)
    requires LiveAction(s, claim, now) && NonBlank(provider) && !HasReceipt(s.receipts, receiptId)
    requires Row(s.intents, claim.intentId).intentId == claim.intentId
    requires Row(s.intents, claim.intentId).requiresApproval ==> IsApproved(s, claim.intentId)
    ensures var r := RecordReceipt(s, claim, ReceiptOutcome.NotFound, provider, response, receiptId, now);
      var u := Committed(s, r);
      && r.Ok? && Claimable(u, claim.intentId) && u.threads == s.threads && u.clock == s.clock
      && RunEnded(u, claim.intentId) == RunEnded(s, claim.intentId)
      && Row(u.intents, claim.intentId).intentId == claim.intentId
  {
    hide Insert, NonBlank, HasReceipt;
  }

  /** The intent is under an execution claim and its Run has ended. */
  ghost predicate ExecutesEnded(s: Store, i: Id) {
    RunEnded(s, i) && Row(s.intents, i).status.Executing?
  }

  /** From any store that a run can lead to, with a claimed intent whose Run has ended: a NOT_FOUND receipt
      and then a claim succeed, and the intent executes although its Run has ended. */
  lemma EndedRunExecutes(
    s: Store, claim: ActionClaim, provider: string, response: Option<Artifact>, receiptId: Id, now: Time,
    worker: string, leaseId: string, seconds: int, later: Time) returns (told: Store, taken: Store)
    requires ReachedByAny(s) && s.clock <= now <= later && seconds >= 1
    requires LiveAction(s, claim, now) && RunEnded(s, claim.intentId)
    requires NonBlank(provider) && !HasReceipt(s.receipts, receiptId)
    ensures RecordReceipt(Tick(s, now), claim, ReceiptOutcome.NotFound, provider, response, receiptId, now) == Ok(told)
    ensures ClaimAction(Tick(told, later), claim.intentId, worker, leaseId, seconds, false, later) == Ok(taken)
    ensures ReachedByAny(taken) && ExecutesEnded(taken, claim.intentId)
  {
    hide ReachedByAny, NonBlank, HasReceipt, ClaimAction, RecordReceipt, OpenInv, CreateActionIntent, CreateApproval,
      DecideApproval, ExpirePendingApprovals, RecoverIncomplete, ApplyWork, ApplyDesk,
      ApplyHold, ApplyRaw;
    var i := claim.intentId;
    ApprovalGate(s, i);
    assert s.intents[i].intentId == i by {
      AnyIsSound(s);
      IntentKeyed(s, i);
    }
    NotFoundReopens(Tick(s, now), claim, provider, response, receiptId, now);
    told := RecordReceipt(Tick(s, now), claim, ReceiptOutcome.NotFound, provider, response, receiptId, now).value;
    AnyGate(s, now, Receipt(claim, ReceiptOutcome.NotFound, provider, response, receiptId), told);
    ExecutionClaimIff(Tick(told, later), i, worker, leaseId, seconds, later);
    taken := ClaimAction(Tick(told, later), i, worker, leaseId, seconds, false, later).value;
    AnyGate(told, later, TakeIntent(i, worker, leaseId, seconds, false), taken);
    TakeFacts(Tick(told, later), i, worker, leaseId, seconds, later);
  }

  lemma AnyNext(s: Store, now: Time, step: Step)
    requires ReachedByAny(s) && Enabled(s, now, step)
    ensures ReachedByAny(After(s, now, step))
  {
    hide Enabled, After;
    var start: Time, trace: Trace :|
      Possible(EmptyStore(start), trace) && s == Execute(EmptyStore(start), trace);
    var longer := trace + [(now, step)];
    assert longer[..|longer| - 1] == trace;
    assert Possible(EmptyStore(start), longer) && After(s, now, step) == Execute(EmptyStore(start), longer);
  }

  lemma AnyGate(s: Store, now: Time, step: GateStep, t: Store)
    requires ReachedByAny(s) && s.clock <= now && ApplyGate(Tick(s, now), step) == Ok(t)
    ensures ReachedByAny(t)
  {
    hide ReachedByAny, ApplyGate, ApplyWork, ApplyDesk, ApplyHold, ApplyRaw, Answered, SweepRows;
    AnyNext(s, now, Gate(step));
  }

  function NotFounds(s: Store, i: Id): nat {
    CountOutcome(s.receipts, i, ReceiptOutcome.NotFound)
  }

  /** If the intent is claimable at t, it was waiting at s or a NOT_FOUND has been recorded since. */
  ghost predicate ReopenedOnly(s: Store, t: Store, i: Id) {
    i in s.intents && Claimable(t, i) ==> Row(s.intents, i).status.Pending? || NotFounds(s, i) < NotFounds(t, i)
  }

  /** Over any run: when cancelling has left a Run no waiting intent, only a NOT_FOUND recorded since lets
      one of its intents be claimed for execution. */
  lemma OnlyNotFoundReopens(s: Store, trace: Trace, i: Id)
    requires ReachedByAny(s) && Possible(s, trace)
    ensures ReopenedOnly(s, Execute(s, trace), i)
  {
    hide ReachedByAny, Possible, Execute, OpenInv, ClaimNextRun, ReplayJob, LedgerOf, SchedulerInv;
    AnyIsSound(s);
    EveryRunSound(s, trace);
    OpenSchedules(s);
    OpenSchedules(Execute(s, trace));
    assert s.journal <= Execute(s, trace).journal && ActionsAdvance(s, Execute(s, trace));
    ExecutionsGrow(s.journal, Execute(s, trace).journal, i);
    assert BooksOK(s, i) && BooksOK(Execute(s, trace), i);
  }

  // =========================================================================== worker loops
  // A run without new work is a history of the worker loop's requests.

  predicate Enqueues(event: Event) {
    match event.body
    case OfJob(RunEnqueued(_, _, _, _)) => true
    case _ => false
  }

  /** Nothing was submitted between the two journals. */
  ghost predicate NothingQueued(before: seq<Event>, after: seq<Event>) {
    forall i :: |before| <= i < |after| ==> !Enqueues(after[i])
  }

  lemma {:induction false} StaysUnqueued(before: seq<Event>, after: seq<Event>, r: Id)
    requires before <= after && NothingQueued(before, after) && ReplayJob(before, r).None?
    ensures ReplayJob(after, r).None?
    decreases |after|
  {
    if |before| < |after| {
      StaysUnqueued(before, after[..|after| - 1], r);
      assert !Enqueues(after[|after| - 1]);
    } else {
      assert before == after;
    }
  }

  /** A request for work, on a store that some run leads to. */
  ghost predicate Asks(m: Moment) {
    && (exists s: Store, now: Time :: ReachedByAny(s) && s.clock <= now && m.store == Tick(s, now))
    && Picks(Sweep(m.store, m.store.clock, m.rows), m.store.clock, m.keys, m.pick)
  }

  /** The next request finds what a run without new work makes of the store the last one left. */
  ghost predicate Between(m: Moment, trace: Trace, next: Moment) {
    && Possible(AfterClaim(m), trace)
    && var t := Execute(AfterClaim(m), trace);
    t.clock <= next.store.clock && next.store == Tick(t, next.store.clock) && NothingQueued(m.store.journal, t.journal)
  }

  lemma ClaimIsSound(m: Moment)
    requires OpenInv(m.store) && Picks(Sweep(m.store, m.store.clock, m.rows), m.store.clock, m.keys, m.pick)
    ensures OpenInv(AfterClaim(m)) && m.store.journal <= AfterClaim(m).journal
  {
    hide OpenInv, ClaimNextRun, Picks, Sweep, StartClaimedRun, HeartbeatRun, RecordClaimedCheckpoint,
      FinishClaimedExecution, BeginClaimedStep, FinishClaimedStep, FinalizeDelivery, RowsAdvance, ActionsAdvance,
      LeasesAdvance;
    if ClaimAt(m).Ok? {
      WorkSound(m.store, WorkStep.Claim(m.worker, m.leaseId, m.seconds, m.keys, m.rows, m.pick));
    }
  }

  lemma RunSchedules(s: Store, trace: Trace)
    requires OpenInv(s) && Possible(s, trace)
    ensures SchedulerInv(s) && SchedulerInv(Execute(s, trace))
    ensures RowsAdvance(s, Execute(s, trace)) && s.journal <= Execute(s, trace).journal
  {
    hide OpenInv, Possible, Execute, RowsAdvance, ActionsAdvance, LeasesAdvance, SchedulerInv, ActionsInv, SortBy;
    EveryRunSound(s, trace);
    OpenSchedules(s);
    OpenSchedules(Execute(s, trace));
  }

  lemma NoNewJobs(s: Store, t: Store)
    requires SchedulerInv(s) && SchedulerInv(t) && s.journal <= t.journal && NothingQueued(s.journal, t.journal)
    ensures t.jobs.Keys <= s.jobs.Keys
  {
    hide RowsOK, ClaimsNumbered, TokensCountClaims, OneLeasePerThread, ReplayJob, NothingQueued;
    forall r | r in t.jobs
      ensures r in s.jobs
    {
      assert ReplayJob(s.journal, r) == Lookup(s.jobs, r) && ReplayJob(t.journal, r) == Lookup(t.jobs, r);
      if r !in s.jobs {
        StaysUnqueued(s.journal, t.journal, r);
      }
    }
  }

  lemma RunFollows(m: Moment, trace: Trace, next: Moment)
    requires Asks(m) && Between(m, trace, next)
    ensures GenuineRequest(m) && Follows(m, next)
  {
    hide ReachedByAny, OpenInv, Possible, Execute, Picks, Sweep, AfterClaim, SchedulerInv, NothingQueued, Remaining,
      Granted, ActionsInv, Advance;
    var s: Store, now: Time :| ReachedByAny(s) && s.clock <= now && m.store == Tick(s, now);
    AnyIsSound(s);
    TickSound(s, now);
    OpenSchedules(m.store);
    ClaimIsSound(m);
    RunSchedules(AfterClaim(m), trace);
    ClaimSpends(m);
    NoNewJobs(m.store, Execute(AfterClaim(m), trace));
  }

  /** Requests on reached stores, with any runs in between that submit nothing, are a history, so that
      `GrantsWithinBudget` and `RunUntilIdle` speak of them. */
  lemma HistoryOfRuns(moments: nat -> Moment, traces: nat -> Trace)
    requires forall k: nat, n: nat :: n == k + 1 ==> Asks(moments(k)) && Between(moments(k), traces(k), moments(n))
    ensures History(moments)
  {
    hide Asks, Between, GenuineRequest, Follows;
    forall k: nat
      ensures GenuineRequest(moments(k)) && Follows(moments(k), moments(k + 1))
    {
      RunFollows(moments(k), traces(k), moments(k + 1));
    }
  }

  // =========================================================================== when calls succeed
  // Calls that pass their guards never fail inside: the reducer always has a legal transition.

  lemma ThreadMoveOk(s: Store, t: Id, origin: Origin, to: ThreadState)
    requires t in s.threads && to in ThreadTransitions(ThreadAt(s, t).actual)
    ensures Emit(s, t, origin, ThreadStateChanged(ThreadAt(s, t).actual, to, [])).Ok?
  {
  }

  lemma RunMoveOk(
    s: Store, t: Id, origin: Origin, r: Id, to: RunState, output: Option<Option<Artifact>>, error: Option<string>)
    requires t in s.threads && r in ThreadAt(s, t).runs && to in RunTransitions(RunAt(ThreadAt(s, t), r).state)
    requires to.Running? ==> ThreadAt(s, t).activeRun.None? || ThreadAt(s, t).activeRun == Some(r)
    ensures Emit(s, t, origin, RunStateChanged(r, RunAt(ThreadAt(s, t), r).state, to, [], output, error)).Ok?
  {
  }

  /** Wishes, attention flags and recorded deliveries are always accepted. */
  lemma AsideOk(s: Store, t: Id, origin: Origin, change: ThreadEvent)
    requires t in s.threads
    requires change.AttentionChanged? || change.DesiredStateChanged? || change.DeliveryRecorded?
    ensures Emit(s, t, origin, change).Ok?
  {
  }

  /** A claim names the Thread its job belongs to, as every claim the scheduler hands out does. */
  ghost predicate OwnClaim(s: Store, claim: WorkerClaim) {
    claim.runId in s.jobs ==> JobAt(s, claim.runId).threadId == claim.threadId
  }

  /** Starting a live claim succeeds exactly when the Run's inputs are bound. */
  lemma StartIff(s: Store, claim: WorkerClaim, now: Time)
    requires OpenInv(s) && AgreeInv(s) && OwnClaim(s, claim)
    ensures Live(s, claim, now) ==> claim.threadId in s.threads && claim.runId in ThreadAt(s, claim.threadId).runs
    ensures StartClaimedRun(s, claim, now).Ok? <==>
      Live(s, claim, now) && SnapshotsBoundTo(RunAt(ThreadAt(s, claim.threadId), claim.runId))
  {
    hide OpenInv, AgreeInv, Mid, Skeleton, Emit, Moves, Coupled;
    if Live(s, claim, now) {
      var t := claim.threadId;
      OwnedRun(s, claim.runId);
      var l := Enter(s, t);
      LiveMeansNewest(s, claim, now, l);
      MidSlot(s, t, l);
      var p, origin := s.threads[t], Origin(claim.worker, now, None);
      if SnapshotsBoundTo(p.runs[l]) {
        if !p.actual.Running? {
          ThreadMoveOk(s, t, origin, ThreadState.Running);
          EmitMoves(s, t, origin, ThreadStateChanged(p.actual, ThreadState.Running, []));
          var awake := Emit(s, t, origin, ThreadStateChanged(p.actual, ThreadState.Running, [])).value;
          MovedThread(p, p.actual, ThreadState.Running, [], awake.threads[t]);
          RunMoveOk(awake, t, origin, l, RunState.Running, None, None);
        }
      }
    }
  }

  lemma MidSlot(s: Store, t: Id, l: Id)
    requires Mid(s, t, l)
    ensures t in s.threads && (ThreadAt(s, t).activeRun.None? || ThreadAt(s, t).activeRun == Some(l))
    ensures l in ThreadAt(s, t).runs
      && (RunAt(ThreadAt(s, t), l).state.Running? ==> ThreadAt(s, t).activeRun == Some(l))
  {
  }

  /** The Run a live claim is working on. */
  ghost predicate Working(s: Store, claim: WorkerClaim, now: Time) {
    && Live(s, claim, now)
    && claim.threadId in s.threads && claim.runId in ThreadAt(s, claim.threadId).runs
    && RunAt(ThreadAt(s, claim.threadId), claim.runId).state.Running?
  }

  /** A live claim on a running Run holds the slot: the fence of every later write is open. */
  lemma WorkingIsActive(s: Store, claim: WorkerClaim, now: Time)
    requires AgreeInv(s) && Working(s, claim, now)
    ensures NeedActive(s, claim, now).Pass?
  {
    hide AgreeInv;
    var l := Enter(s, claim.threadId);
    LiveMeansNewest(s, claim, now, l);
  }

  lemma SettleThreadOk(
    s: Store, claim: WorkerClaim, how: Settlement, output: Option<Artifact>, error: Option<string>, origin: Origin)
    requires OpenInv(s) && claim.threadId in s.threads && claim.runId in ThreadAt(s, claim.threadId).runs
    requires RunAt(ThreadAt(s, claim.threadId), claim.runId).state.Running?
      && ThreadAt(s, claim.threadId).actual.Running?
    ensures SettleThread(s, claim, how, output, error, origin).Ok?
  {
    hide OpenInv, Emit, Moves;
    var t, r := claim.threadId, claim.runId;
    var first := RunStateChanged(r, RunState.Running, RunTarget(how), [], Some(output), error);
    RunMoveOk(s, t, origin, r, RunTarget(how), Some(output), error);
    EmitMoves(s, t, origin, first);
    var a := Emit(s, t, origin, first).value;
    MovedRun(s.threads[t], r, RunState.Running, RunTarget(how), [], Some(output), error, a.threads[t]);
    ThreadMoveOk(a, t, origin, ThreadTarget(how));
    var second := ThreadStateChanged(ThreadState.Running, ThreadTarget(how), []);
    EmitMoves(a, t, origin, second);
    AsideOk(Emit(a, t, origin, second).value, t, origin, AttentionChanged(AttentionState.Failed));
  }

  lemma WorkingRuns(s: Store, claim: WorkerClaim, now: Time)
    requires AgreeInv(s) && Working(s, claim, now)
    ensures ThreadAt(s, claim.threadId).actual.Running?
    ensures JobAt(s, claim.runId).executorKey == RunAt(ThreadAt(s, claim.threadId), claim.runId).executorKey
  {
    hide AgreeInv, Mid;
    var l := Enter(s, claim.threadId);
    LiveMeansNewest(s, claim, now, l);
  }

  predicate GoodOutcome(outcome: Outcome) {
    outcome.Failure? ==> outcome.code != "" && outcome.error != ""
  }

  /** Settling succeeds exactly for a live claim at work under the executor it was queued for. */
  lemma SettleIff(s: Store, claim: WorkerClaim, executorKey: string, version: string, outcome: Outcome, now: Time)
    requires OpenInv(s) && AgreeInv(s) && NonBlank(executorKey) && NonBlank(version) && GoodOutcome(outcome)
    ensures FinishClaimedExecution(s, claim, executorKey, version, outcome, now).Ok? <==>
      Working(s, claim, now) && JobAt(s, claim.runId).executorKey == Strip(executorKey)
  {
    hide OpenInv, AgreeInv, SettleThread, SettleJob, NonBlank, LastErrorOf, ErrorOf;
    if Working(s, claim, now) {
      WorkingIsActive(s, claim, now);
      WorkingRuns(s, claim, now);
      var how := SettlementOf(outcome, s.jobs[claim.runId], now);
      SettleThreadOk(s, claim, how, OutputOf(outcome), ErrorOf(outcome), Origin(claim.worker, now, None));
    }
  }

  // ---------------------------------------------------------------- delivery

  lemma CloseThreadOk(s: Store, claim: WorkerClaim, delivery: Id, primary: Artifact, origin: Origin)
    requires OpenInv(s) && claim.threadId in s.threads && claim.runId in ThreadAt(s, claim.threadId).runs
    requires RunAt(ThreadAt(s, claim.threadId), claim.runId).state.Running?
      && ThreadAt(s, claim.threadId).actual.Running?
    ensures CloseThread(s, claim, delivery, primary, origin).Ok?
  {
    hide OpenInv, Emit, Moves, Terminal;
    var t, r := claim.threadId, claim.runId;
    AsideOk(s, t, origin, DeliveryRecorded(delivery));
    EmitMoves(s, t, origin, DeliveryRecorded(delivery));
    var a := Emit(s, t, origin, DeliveryRecorded(delivery)).value;
    MovedAside(s.threads[t], DeliveryRecorded(delivery), a.threads[t]);
    var change := RunStateChanged(r, RunState.Running, RunState.Completed, [], Some(Some(primary)), None);
    RunMoveOk(a, t, origin, r, RunState.Completed, Some(Some(primary)), None);
    EmitMoves(a, t, origin, change);
    var b := Emit(a, t, origin, change).value;
    MovedRun(a.threads[t], r, RunState.Running, RunState.Completed, [], Some(Some(primary)), None, b.threads[t]);
    ThreadMoveOk(b, t, origin, ThreadState.Delivered);
    var moved := ThreadStateChanged(ThreadState.Running, ThreadState.Delivered, []);
    EmitMoves(b, t, origin, moved);
    AsideOk(Emit(b, t, origin, moved).value, t, origin, AttentionChanged(AttentionState.DeliveryReady));
  }

  /** Every delivery stands in its Thread's chain at the place its version says. */
  lemma {:induction false} ChainHolds(deliveries: seq<DeliveryRecord>, i: nat, t: Id)
    requires i < |deliveries| && deliveries[i].threadId == t && Linked(Chain(deliveries, t))
    ensures deliveries[i].version <= |Chain(deliveries, t)|
    decreases |deliveries|
  {
    var n := |deliveries| - 1;
    var chain, earlier := Chain(deliveries, t), Chain(deliveries[..n], t);
    if i == n {
      assert chain[|chain| - 1].version == |chain| by {
        assert LinkAt(chain, |chain| - 1);
      }
    } else {
      hide Linked;
      LinkedPrefix(chain, |earlier|);
      assert chain[..|earlier|] == earlier;
      ChainHolds(deliveries[..n], i, t);
    }
  }

  /** A Run id belongs to one Thread only. */
  lemma DeliveredHere(s: Store, row: DeliveryRecord, i: nat)
    requires AgreeInv(s) && i < |s.deliveries| && Backed(s, s.deliveries[i])
    requires row.threadId in s.threads && row.runId in ThreadAt(s, row.threadId).runs
    requires s.deliveries[i].runId == row.runId
    ensures s.deliveries[i].threadId == row.threadId
  {
    hide ThreadOK, Matches;
    assert AgreesOn(s, row.threadId) && AgreesOn(s, s.deliveries[i].threadId);
    assert Coupled(s, row.threadId, row.runId) && Coupled(s, s.deliveries[i].threadId, row.runId);
  }

  lemma NextVersion(deliveries: seq<DeliveryRecord>, t: Id)
    requires Linked(Chain(deliveries, t))
    ensures match Prior(deliveries, t)
      case Some(prior) => prior.version == |Chain(deliveries, t)|
      case None => Chain(deliveries, t) == []
  {
    PriorIsLast(deliveries, t);
    var chain := Chain(deliveries, t);
    assert chain != [] ==> LinkAt(chain, |chain| - 1);
  }

  lemma NextRowFits(
    s: Store, claim: WorkerClaim, primary: Artifact, report: Artifact, summary: Artifact, supporting: seq<Artifact>,
    now: Time)
    requires AgreeInv(s) && DeliveryInv(s) && Working(s, claim, now)
    ensures !DeliveryClashes(s.deliveries, NextDelivery(s, claim, primary, report, summary, supporting, now))
  {
    hide AgreeInv, Live, Prior, Linked, Chain;
    var row := NextDelivery(s, claim, primary, report, summary, supporting, now);
    var t := row.threadId;
    assert Linked(Chain(s.deliveries, t));
    NextVersion(s.deliveries, t);
    forall i | 0 <= i < |s.deliveries|
      ensures s.deliveries[i].runId != row.runId && s.deliveries[i].deliveryId != row.deliveryId
      ensures s.deliveries[i].threadId == t ==> s.deliveries[i].version != row.version
    {
      assert Backed(s, s.deliveries[i]);
      if s.deliveries[i].runId == row.runId {
        DeliveredHere(s, row, i);
      }
      if s.deliveries[i].threadId == t {
        ChainHolds(s.deliveries, i, t);
      }
    }
  }

  /** Finalizing succeeds exactly for a live claim at work under the executor it was queued for. */
  lemma FinalizeIff(
    s: Store, claim: WorkerClaim, executorKey: string, primary: Artifact, report: Artifact, summary: Artifact,
    supporting: seq<Artifact>, now: Time)
    requires OpenInv(s) && AgreeInv(s) && DeliveryInv(s)
    ensures FinalizeDelivery(s, claim, executorKey, primary, report, summary, supporting, now).Ok? <==>
      Working(s, claim, now) && JobAt(s, claim.runId).executorKey == executorKey
  {
    hide OpenInv, AgreeInv, DeliveryInv, CloseThread, SettleJob, Log, DeliveryClashes, Sound, Confined,
      NextDelivery, Advance;
    if Working(s, claim, now) {
      WorkingIsActive(s, claim, now);
      WorkingRuns(s, claim, now);
      NextRowFits(s, claim, primary, report, summary, supporting, now);
      var row := NextDelivery(s, claim, primary, report, summary, supporting, now);
      var origin, stream := Origin(claim.worker, now, None), DeliveryStream(row.deliveryId);
      var prepared := Log(s, stream, Some(claim.threadId), origin, DeliveryPrepared(row.version));
      LogSound(s, stream, Some(claim.threadId), origin, DeliveryPrepared(row.version));
      SoundKeepsOpen(s, prepared);
      LogKeepsTables(s, stream, Some(claim.threadId), origin, DeliveryPrepared(row.version));
      CloseThreadOk(prepared, claim, row.deliveryId, primary, origin);
    }
  }

  // ---------------------------------------------------------------- cancelling

  lemma {:induction false} CancelRunsOk(s: Store, t: Id, l: Id, runs: seq<Id>, rows: seq<Id>, reason: string,
      origin: Origin)
    requires OpenInv(s) && Even(s, t, l)
    ensures CancelRuns(s, t, runs, rows, reason, origin).Ok?
    decreases |runs|
  {
    hide OpenInv, Mid, Held, Matches, CancelPendingActions, Emit;
    if runs != [] {
      var n := |runs| - 1;
      CancelRunsOk(s, t, l, runs[..n], rows, reason, origin);
      CancelRunsEven(s, t, l, runs[..n], rows, reason, origin);
      var earlier := CancelRuns(s, t, runs[..n], rows, reason, origin).value;
      var dropped := CancelPendingActions(earlier, runs[n], rows, reason, origin);
      CancelPendingConfined(earlier, runs[n], rows, reason, origin);
      assert Quiet(earlier, dropped, Threads) && Quiet(earlier, dropped, Jobs);
      if runs[n] in earlier.threads[t].runs && !Terminal(earlier.threads[t].runs[runs[n]].state) {
        RunMoveOk(dropped, t, origin, runs[n], RunState.Cancelled, None, None);
      }
    }
  }

  lemma CancelForUpdateOk(s: Store, t: Id, l: Id, runs: seq<Id>, rows: seq<Id>, reason: string, origin: Origin)
    requires OpenInv(s) && Even(s, t, l)
    ensures CancelForUpdate(s, t, runs, rows, reason, origin).Ok?
  {
    hide OpenInv, Mid, CancelRuns, Emit, NothingPending, Matches;
    CancelRunsOk(s, t, l, runs, rows, reason, origin);
    var a := CancelRuns(s, t, runs, rows, reason, origin).value;
    if t in a.threads {
      AsideOk(a, t, origin, AttentionChanged(AttentionState.Calm));
    }
  }

  lemma CancelThreadOk(s: Store, t: Id, l: Id, runs: seq<Id>, rows: seq<Id>, origin: Origin)
    requires OpenInv(s) && Finished(s, t, l) && ListsOpen(ThreadAt(s, t), runs)
    requires ThreadAt(s, t).desired.Run? && !ThreadAt(s, t).actual.Delivered?
    ensures CancelThread(s, t, runs, rows, origin).Ok?
  {
    hide OpenInv, Mid, Emit, CancelForUpdate, Matches, Skeleton, ListsOpen, Ended, SameFrame;
    var wish := DesiredStateChanged(DesiredState.Cancel);
    AsideOk(s, t, origin, wish);
    EmitMid(s, t, l, origin, wish);
    var wanted := Emit(s, t, origin, wish).value;
    WishMoves(s.threads[t], wanted.threads[t]);
    CancelForUpdateOk(wanted, t, l, runs, rows, USER_CANCELLED, origin);
    var cleared := WithdrawMid(s, t, l, runs, rows, origin);
    ThreadMoveOk(cleared, t, origin, ThreadState.Cancelled);
  }

  // ---------------------------------------------------------------- a superseding Run

  lemma ForkForUpdateOk(s: Store, t: Id, sub: ThreadUpdateSubmission, before: ThreadProjection, origin: Origin)
    requires OpenInv(s) && t in s.threads && ThreadAt(s, t).threadId == t && sub.threadId == t
    requires FitBranch(before, sub) && BranchOf(sub.messageKey) !in ThreadAt(s, t).branches
    requires BranchOf(sub.messageKey) != before.currentBranch && before.currentBranch == ThreadAt(s, t).currentBranch
    ensures ForkForUpdate(s, sub, TargetBranch(sub, ThreadAt(s, t).currentBranch), origin).Ok?
  {
    hide OpenInv, Moves;
    if sub.forkedFrom.Some? {
      var branch := BranchOf(sub.messageKey);
      var fork := BranchForked(branch, sub.forkedFrom, sub.forkedFromEvent.value, sub.baseRevision.value,
          sub.reason.value);
      EmitMoves(s, t, origin, fork);
      var forked := Emit(s, t, origin, fork).value;
      assert Emit(forked, t, origin, BranchSelected(branch)).Ok?;
    }
  }

  lemma CreatedFresh(
    p: ThreadProjection, r: Id, branch: Id, key: string, supersedes: Option<Id>, q: ThreadProjection)
    requires Moves(p, RunCreated(r, branch, key, supersedes), q)
    ensures r in q.runs
    ensures var run := RunAt(q, r); run.state.Created? && run.task.None? && run.agent.None? && run.context.None?
  {
  }

  lemma CreationOk(s: Store, t: Id, origin: Origin, r: Id, branch: Id, key: string, supersedes: Option<Id>)
    requires t in s.threads && r !in ThreadAt(s, t).runs
    ensures Emit(s, t, origin, RunCreated(r, branch, key, supersedes)).Ok?
  {
  }

  lemma BindingOk(s: Store, t: Id, origin: Origin, r: Id, task: Artifact, agent: Artifact, context: Artifact)
    requires t in s.threads && r in ThreadAt(s, t).runs && RunAt(ThreadAt(s, t), r).state.Created?
    requires RunAt(ThreadAt(s, t), r).task.None? && RunAt(ThreadAt(s, t), r).agent.None?
      && RunAt(ThreadAt(s, t), r).context.None?
    ensures Emit(s, t, origin, SnapshotsBound(r, task, agent, context)).Ok?
  {
  }

  lemma CreateQueuedOk(
    s: Store, t: Id, r: Id, branch: Id, key: string, supersedes: Option<Id>, task: Artifact, agent: Artifact,
    context: Artifact, origin: Origin)
    requires OpenInv(s) && t in s.threads && RunsNumbered(ThreadAt(s, t)) && r !in ThreadAt(s, t).runs
    ensures CreateQueuedRun(
      s, t, RunCreated(r, branch, key, supersedes), SnapshotsBound(r, task, agent, context), origin).Ok?
  {
    hide OpenInv, Moves, RunsNumbered, Emit;
    var creation, binding := RunCreated(r, branch, key, supersedes), SnapshotsBound(r, task, agent, context);
    CreationOk(s, t, origin, r, branch, key, supersedes);
    EmitMoves(s, t, origin, creation);
    var a, compiler := Emit(s, t, origin, creation).value, origin.(actor := "context-compiler");
    CreatedFresh(s.threads[t], r, branch, key, supersedes, a.threads[t]);
    BindingOk(a, t, compiler, r, task, agent, context);
    EmitMoves(a, t, compiler, binding);
    var b := Emit(a, t, compiler, binding).value;
    BoundTo(a.threads[t], r, task, agent, context, b.threads[t]);
    RunMoveOk(b, t, origin.(actor := "scheduler"), r, RunState.Queued, None, None);
  }

  lemma ScheduleOk(s: Store, t: Id, l: Id, sub: ThreadUpdateSubmission, branch: Id, origin: Origin)
    requires OpenInv(s) && t in s.threads && ThreadAt(s, t).threadId == t && sub.threadId == t
    requires Ready(ThreadAt(s, t), l, sub.messageKey) && branch == ThreadAt(s, t).currentBranch
    requires l in ThreadAt(s, t).runs && Executable(sub) && sub.maxAttempts >= 1 && NonBlank(sub.executorKey)
    requires sub.supersedes == Some(l) && sub.newRun == Some(UpdateRunOf(sub.messageKey))
    requires StoredInputs(The(sub.task), The(sub.context))
    requires GoesOn(RunAt(ThreadAt(s, t), l), sub.task, sub.context, sub.messageKey)
    requires The(sub.newRun) !in s.jobs && The(sub.newRun) !in ThreadAt(s, t).runs
    ensures ScheduleNewRun(s, sub, branch, origin).Ok?
  {
    hide OpenInv, Skeleton, Latest, CreateQueuedRun, NonBlank, GoesOn, StoredInputs, Emit, BranchesOK, Shaped,
      WriteJob, KeysOK;
    var r, scheduler := sub.newRun.value, origin.(actor := "scheduler");
    SkeletonParts(s.threads[t]);
    CreateQueuedOk(
      s, t, r, branch, sub.executorKey, sub.supersedes, sub.task.value, sub.agent.value, sub.context.value, origin);
    var queued := CreateQueuedMoves(s, t, l, sub, branch, origin);
    assert QueueThread(queued, t, scheduler).Ok? by {
      if Requeued(queued.threads[t].actual) {
        ThreadMoveOk(queued, t, scheduler, ThreadState.Queued);
      }
    }
    var ready := QueueMoves(s, queued, t, l, r, scheduler);
  }

  // =========================================================================== when updates succeed
  // An inbox update that passes its guards takes effect, whatever state its Thread is in.

  lemma {:induction false} CancelRunsKeepKeys(s: Store, t: Id, runs: seq<Id>, rows: seq<Id>, reason: string,
      origin: Origin)
    requires CancelRuns(s, t, runs, rows, reason, origin).Ok?
    ensures Committed(s, CancelRuns(s, t, runs, rows, reason, origin)).jobs.Keys == s.jobs.Keys
    decreases |runs|
  {
    hide CancelRun;
    if runs != [] {
      var n := |runs| - 1;
      CancelRunsKeepKeys(s, t, runs[..n], rows, reason, origin);
      CancelRunKeepsKeys(CancelRuns(s, t, runs[..n], rows, reason, origin).value, t, runs[n], rows, reason, origin);
    }
  }

  lemma CancelRunKeepsKeys(s: Store, t: Id, r: Id, rows: seq<Id>, reason: string, origin: Origin)
    requires CancelRun(s, t, r, rows, reason, origin).Ok?
    ensures Committed(s, CancelRun(s, t, r, rows, reason, origin)).jobs.Keys == s.jobs.Keys
  {
    hide Emit, CancelPendingActions, Confined;
    if t in s.threads && r in s.threads[t].runs && !Terminal(s.threads[t].runs[r].state) {
      var dropped := CancelPendingActions(s, r, rows, reason, origin);
      CancelPendingConfined(s, r, rows, reason, origin);
      ActionsKeepRows(s, dropped);
      var change := RunStateChanged(r, s.threads[t].runs[r].state, RunState.Cancelled, [], None, None);
      EmitOnlyThread(dropped, t, origin, change);
      var ended := Emit(dropped, t, origin, change).value;
      assert CancelJob(ended, r, origin).jobs.Keys == ended.jobs.Keys;
    }
  }

  lemma ClearingKeepsKeys(s: Store, t: Id, runs: seq<Id>, rows: seq<Id>, reason: string, origin: Origin)
    requires CancelForUpdate(s, t, runs, rows, reason, origin).Ok?
    ensures Committed(s, CancelForUpdate(s, t, runs, rows, reason, origin)).jobs.Keys == s.jobs.Keys
  {
    hide CancelRuns, Emit, NothingPending;
    CancelRunsKeepKeys(s, t, runs, rows, reason, origin);
    var cancelled, calm := CancelRuns(s, t, runs, rows, reason, origin).value, AttentionChanged(AttentionState.Calm);
    if CancelForUpdate(s, t, runs, rows, reason, origin).value != cancelled {
      EmitOnlyThread(cancelled, t, origin, calm);
    }
  }

  lemma StartNewRunOk(s: Store, t: Id, l: Id, sub: ThreadUpdateSubmission, before: ThreadProjection, origin: Origin)
    requires Emptied(s, t, l, before, sub.messageKey) && FitRun(before, l, sub) && sub.threadId == t
    requires BranchesOK(before) && KeysOK(before) && !before.HasUpdate(sub.messageKey)
    requires UpdateRunOf(sub.messageKey) !in s.jobs
    ensures StartNewRun(s, sub, origin).Ok?
  {
    hide OpenInv, Skeleton, Latest, ForkForUpdate, ScheduleNewRun, NonBlank, OneItemMore, TaskGrows, BranchesOK,
      FitBranch, ListsOpen, Ready;
    BasesBelow(before);
    ForkForUpdateOk(s, t, sub, before, origin);
    var branch := TargetBranch(sub, s.threads[t].currentBranch);
    var branched := ForkMoves(s, t, l, sub, before, origin);
    ScheduleOk(branched, t, l, sub, branch, origin);
  }

  /** An update compiled from the Thread it meets is applied exactly when it is admitted and new;
      the one further guard keeps a delivered Thread from being cancelled. */
  lemma UpdateIff(s: Store, sub: ThreadUpdateSubmission, l: Id, ids: seq<Id>, rows: seq<Id>)
    requires OpenInv(s) && Finished(s, sub.threadId, l) && FitUpdate(ThreadAt(s, sub.threadId), l, sub, ids)
    requires UpdateRunOf(sub.messageKey) !in s.jobs
    ensures ApplyThreadUpdate(s, sub, ids, rows).Ok? <==>
      && AdmitUpdate(s, sub).Pass? && !ThreadAt(s, sub.threadId).HasUpdate(sub.messageKey)
      && (sub.kind.Cancel? ==> !ThreadAt(s, sub.threadId).actual.Delivered?)
  {
    hide OpenInv, Skeleton, Moves, Mid, StartNewRun, SupersededBy, FitRun, NonBlank, Matches, BranchesOK, Emptied,
      Tally, CancelRuns;
    var t, origin := sub.threadId, UpdateOrigin(sub);
    var p := s.threads[t];
    var change := MessageAppended(
      sub.messageKey, sub.message, sub.text, sub.kind, p.currentBranch, sub.task, sub.context, sub.newRun);
    assert Emit(s, t, origin, change).Ok? <==> !ThreadAt(s, t).HasUpdate(change.updateId);
    MidParts(s, t, l);
    if AdmitUpdate(s, sub).Pass? && !p.HasUpdate(sub.messageKey) {
      EmitMid(s, t, l, origin, change);
      var noted := Emit(s, t, origin, change).value;
      MessageNoted(p, change, noted.threads[t]);
      if sub.kind.Cancel? {
        if !p.actual.Delivered? {
          CancelThreadOk(noted, t, l, ids, rows, origin);
        } else {
          assert CancelThread(noted, t, ids, rows, origin).Err?;
        }
      } else {
        FitRunParts(p, l, sub);
        CancelForUpdateOk(noted, t, l, sub.supersedesRuns, rows, SupersededBy(sub.kind), origin);
        ClearingKeepsKeys(noted, t, sub.supersedesRuns, rows, SupersededBy(sub.kind), origin);
        var cleared := ClearForUpdate(s, noted, t, l, sub, rows, origin);
        StartNewRunOk(cleared, t, l, sub, p, origin);
      }
    }
  }

  // ---------------------------------------------------------------- fresh keys

  /** Only its message gives a Thread an update. */
  lemma NewUpdate(p: ThreadProjection, event: Event, q: ThreadProjection, key: Id)
    requires Reduce(Some(p), event) == Ok(q) && q.HasUpdate(key) && !p.HasUpdate(key)
    ensures Counts(event, key, AnEffect)
  {
  }

  /** A Thread has an update only once its message was counted. */
  lemma {:induction false} UpdateNeedsMessage(journal: seq<Event>, t: Id, p: ThreadProjection, key: Id)
    requires Replay(journal, t) == Ok(Some(p)) && p.HasUpdate(key)
    ensures Tally(journal, key, AnEffect) >= 1
    decreases |journal|
  {
    hide ReduceExisting;
    var n := |journal| - 1;
    var earlier := Replay(journal[..n], t);
    if earlier.value.Some? && earlier.value.value.HasUpdate(key) {
      UpdateNeedsMessage(journal[..n], t, earlier.value.value, key);
    } else if earlier.value.Some? {
      NewUpdate(earlier.value.value, journal[n], p, key);
    }
  }

  /** A key whose route has taken no effect has left no trace: no Thread, no update, no job. */
  lemma FreshKey(s: Store, key: Id)
    requires ClosedInv(s) && (key in s.inbox ==> !Effective(Row(s.inbox, key)))
    ensures ThreadOf(key) !in s.threads && UpdateRunOf(key) !in s.jobs
    ensures forall t :: t in s.threads ==> !ThreadAt(s, t).HasUpdate(key)
  {
    hide DeliveryInv, AgreeInv, ThreadProjection.HasUpdate, OpenInv, Replay, Tally;
    OpenParts(s);
    assert OnceFor(s, key);
    NoThreadYet(s, key);
    forall t | t in s.threads
      ensures !s.threads[t].HasUpdate(key)
    {
      assert Replay(s.journal, t) == Ok(Some(ThreadAt(s, t))) by {
        assert Replay(s.journal, t) == Ok(Lookup(s.threads, t));
      }
      if s.threads[t].HasUpdate(key) {
        UpdateNeedsMessage(s.journal, t, s.threads[t], key);
      }
    }
    if UpdateRunOf(key) in s.jobs {
      JobNeedsUpdate(s, key);
    }
  }

  lemma JobNeedsUpdate(s: Store, key: Id)
    requires AgreeInv(s) && UpdateRunOf(key) in s.jobs
    ensures exists t :: t in s.threads && ThreadAt(s, t).HasUpdate(key)
  {
    hide AgreeInv, ThreadProjection.HasUpdate, BranchesOK, Coupled, Mirrors;
    OwnedRun(s, UpdateRunOf(key));
    var t := s.jobs[UpdateRunOf(key)].threadId;
    var l := Enter(s, t);
    assert t in s.threads && KeysOK(ThreadAt(s, t)) && BranchesOK(ThreadAt(s, t));
    assert s.threads[t].HasUpdate(key);
  }

  // ---------------------------------------------------------------- the coordinator

  /** A confirmed update route for a message nobody has seen, prepared from the Thread as it is. */
  ghost predicate FreshUpdate(
    s: Store, message: InboxMessage, route: InboxRoute, project: string, seen: Option<ThreadProjection>, ids: seq<Id>)
  {
    && KeyOf(message) !in s.inbox
    && route.routeType.ThreadUpdate? && !route.requiresConfirmation && route.updateKind.Some? && route.target.Some?
    && Strip(route.taskText) != ""
    && route.target.value in s.threads && seen == Some(s.threads[route.target.value])
    && Lists(s.threads[route.target.value], ids) && s.threads[route.target.value].projectId == project
  }

  /** What can still refuse it: the Thread is cancelled, a delivered Thread is to be cancelled, or
      the executor named by the frozen task is blank. */
  ghost predicate Refused(p: ThreadProjection, kind: UpdateKind, ids: seq<Id>) {
    || p.actual.Cancelled?
    || (kind.Cancel? && p.actual.Delivered?)
    || (!kind.Cancel? && !NonBlank(NextExecutor(p, ids)))
  }

  function NextExecutor(p: ThreadProjection, ids: seq<Id>): string {
    var id := Basis(p, ids);
    var basis := if id.Some? then Some(p.runs[id.value]) else None;
    var base := BaseTask(basis);
    ExecutorKeyFor(if base.Ok? then base.value else None, basis)
  }

  lemma PreparedExecutor(
    p: ThreadProjection, ids: seq<Id>, record: InboxRecord, text: string, kind: UpdateKind, agent: Artifact, at: Time,
    sub: ThreadUpdateSubmission)
    requires PrepareRun(p, ids, record, text, kind, agent, at) == Ok(sub)
    ensures sub.executorKey == NextExecutor(p, ids) && sub.maxAttempts == 3 && Executable(sub)
      && sub.projectId == record.projectId && sub.threadId == p.threadId && sub.kind == kind
  {
    hide Basis, ContextFor, Superseded, RevisedTask;
  }

  /** The coordinator's update, seen from the repository call it ends in. */
  lemma FreshUpdateCall(
    s: Store, message: InboxMessage, route: InboxRoute, project: string, agent: Artifact,
    seen: Option<ThreadProjection>, ids: seq<Id>, rows: seq<Id>, now: Time, kind: UpdateKind)
    returns (sub: ThreadUpdateSubmission)
    requires ClosedInv(s) && FreshUpdate(s, message, route, project, seen, ids) && route.updateKind == Some(kind)
    ensures var record := NewRecord(message, route, project);
      var stored := LogAcceptance(s, record).(inbox := s.inbox[record.messageKey := record]);
      && PrepareUpdate(seen, ids, record, route.taskText, kind, agent, message.createdAt) == Ok(sub)
      && (Accept(s, message, route, project, agent, seen, ids, rows, now).Ok?
          <==> ApplyThreadUpdate(stored, sub, ids, rows).Ok?)
  {
    hide ClosedInv, LogAcceptance, PrepareRun, ApplyThreadUpdate, Lists, Strip, NextExecutor, PrepareTask,
      SameInbound, SubmitTask;
    var record := NewRecord(message, route, project);
    PreparingWorks(s, route.target.value, ids, record, Strip(route.taskText), kind, agent, message.createdAt);
    var p := s.threads[route.target.value];
    StoredUnderOwnId(s, route.target.value);
    sub := PrepareUpdate(seen, ids, record, route.taskText, kind, agent, message.createdAt).value;
    if !kind.Cancel? {
      PreparedExecutor(p, ids, record, Strip(route.taskText), kind, agent, message.createdAt, sub);
      PreparedTarget(p, ids, record, route.taskText, kind, agent, message.createdAt, sub);
    }
  }

  lemma StoredUnderOwnId(s: Store, t: Id)
    requires ClosedInv(s) && t in s.threads
    ensures ThreadAt(s, t).threadId == t
  {
    hide OpenInv, DeliveryInv, InboxInv, ThreadOK;
    assert AgreesOn(s, t);
  }

  lemma PreparingWorks(
    s: Store, t: Id, ids: seq<Id>, record: InboxRecord, text: string, kind: UpdateKind, agent: Artifact, at: Time)
    requires ClosedInv(s) && t in s.threads && Lists(ThreadAt(s, t), ids)
    ensures PrepareRun(ThreadAt(s, t), ids, record, text, kind, agent, at).Ok?
  {
    hide OpenInv, DeliveryInv, InboxInv, AgreeInv, Mid, Led, Basis, BranchesOK, ContextFor, Coupled, LineageOK,
      RevisedTask;
    var l := Enter(s, t);
    MidShape(s, t, l);
    PreparingSucceeds(s.threads[t], l, ids, record, text, kind, agent, at);
  }

  /** The same question put to the repository call. */
  lemma PreparedUpdateIff(
    s: Store, p: ThreadProjection, ids: seq<Id>, rows: seq<Id>, record: InboxRecord, text: string, kind: UpdateKind,
    agent: Artifact, at: Time, sub: ThreadUpdateSubmission)
    requires OpenInv(s) && AgreeInv(s) && p.threadId in s.threads && ThreadAt(s, p.threadId) == p && Lists(p, ids)
    requires !p.HasUpdate(record.messageKey) && UpdateRunOf(record.messageKey) !in s.jobs
    requires PrepareUpdate(Some(p), ids, record, text, kind, agent, at) == Ok(sub)
    ensures ApplyThreadUpdate(s, sub, ids, rows).Ok? <==> !Refused(p, kind, ids)
  {
    hide OpenInv, AgreeInv, ApplyThreadUpdate, Mid, Skeleton, Led, Matches, ThreadProjection.HasUpdate, NextExecutor,
      PrepareRun, Tally;
    var l := Enter(s, p.threadId);
    MidShape(s, p.threadId, l);
    PreparedTarget(p, ids, record, text, kind, agent, at, sub);
    PreparedShape(p, l, ids, record, text, kind, agent, at, sub);
    assert NonBlank("unassigned") by {
      assert !IsWhite("unassigned"[0]);
    }
    assert AdmitUpdate(s, sub).Pass? <==> !p.actual.Cancelled? && (!sub.kind.Cancel? ==> NonBlank(sub.executorKey));
    if NonBlank(sub.executorKey) {
      assert FitUpdate(p, l, sub, ids) by {
        if !kind.Cancel? {
          PreparedFits(p, l, ids, record, Strip(text), kind, agent, at, sub);
        }
      }
      UpdateIff(s, sub, l, ids, rows);
    } else if ApplyThreadUpdate(s, sub, ids, rows).Ok? {
      AdmittedFacts(s, sub, ids, rows);
      assert false;
    }
  }

  /** A fresh, confirmed update of an existing Thread fails for no reason but the three a caller can
      see beforehand; from every other reachable state it takes effect. */
  lemma AcceptUpdateIff(
    s: Store, message: InboxMessage, route: InboxRoute, project: string, agent: Artifact,
    seen: Option<ThreadProjection>, ids: seq<Id>, rows: seq<Id>, now: Time)
    requires ClosedInv(s) && FreshUpdate(s, message, route, project, seen, ids)
    ensures Accept(s, message, route, project, agent, seen, ids, rows, now).Ok?
      <==> !Refused(ThreadAt(s, The(route.target)), The(route.updateKind), ids)
  {
    hide OpenInv, DeliveryInv, InboxInv, AgreeInv, LogAcceptance, PrepareUpdate, ApplyThreadUpdate, Accept,
      ThreadProjection.HasUpdate, Refused, Lists, Strip;
    var t, record := route.target.value, NewRecord(message, route, project);
    var stored := LogAcceptance(s, record).(inbox := s.inbox[record.messageKey := record]);
    var kind := route.updateKind.value;
    var sub := FreshUpdateCall(s, message, route, project, agent, seen, ids, rows, now, kind);
    FreshKey(s, record.messageKey);
    AcceptedNoted(s, record);
    LogAcceptanceKeeps(s, record);
    StoredUnderOwnId(s, t);
    PreparedUpdateIff(stored, s.threads[t], ids, rows, record, route.taskText, kind, agent, message.createdAt, sub);
  }

  /** What preparing fixes about the submission, cancellation or not. */
  lemma PreparedShape(
    p: ThreadProjection, l: Id, ids: seq<Id>, record: InboxRecord, text: string, kind: UpdateKind, agent: Artifact,
        at: Time, sub: ThreadUpdateSubmission)
    requires PrepareUpdate(Some(p), ids, record, text, kind, agent, at) == Ok(sub)
    ensures sub.projectId == p.projectId && sub.maxAttempts == 3
      && (kind.Cancel? ==> sub.task.None? && sub.agent.None? && sub.context.None? && sub.executorKey == "unassigned")
      && (!kind.Cancel? ==> Executable(sub) && sub.executorKey == NextExecutor(p, ids))
  {
    hide PrepareRun, NextExecutor;
    if !kind.Cancel? {
      PreparedExecutor(p, ids, record, Strip(text), kind, agent, at, sub);
    }
  }
}
