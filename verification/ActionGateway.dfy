/** The gateway for computer actions: intent, approval, claim, provider, receipt, in this order. */
module ActionGateway {
  import opened Prelude
  import opened Vocabulary
  import opened Journal
  import opened Store
  import opened Scheduler
  import opened Actions
  import opened Resources
  import opened Integrity
  import opened Agreement
  import opened Protocol
  import opened Repository

  // =========================================================================== provider calls
  // The action gateway: the provider is called at most once for each execution claim.

  /** The store, the execution claims gateways hold without having called the provider yet, and the
      provider calls made so far. */
  datatype GatewayWorld = GatewayWorld(store: Store, held: multiset<Id>, called: multiset<Id>)

  /** `_execute_or_resume` is a claim, then a provider call, then a receipt; everything else the
      runtime does may come in between. */
  datatype GatewayStep =
    | TakeForExecution(intent: Id, worker: string, leaseId: string, seconds: int)
    | CallProvider(intent: Id)
    | Meanwhile(step: Step)

  function GatewayAfter(d: GatewayWorld, now: Time, step: GatewayStep): GatewayWorld {
    match step
    case TakeForExecution(intent, worker, leaseId, seconds) =>
      var result := Apply(Tick(d.store, now), Gate(TakeIntent(intent, worker, leaseId, seconds, false)));
      if result.Ok? then GatewayWorld(Committed(d.store, result), d.held + multiset{intent}, d.called) else d
    case CallProvider(intent) => GatewayWorld(d.store, d.held - multiset{intent}, d.called + multiset{intent})
    case Meanwhile(call) => GatewayWorld(After(d.store, now, call), d.held, d.called)
  }

  /** A gateway calls the provider only under a claim it holds and has not used. */
  ghost predicate GatewayEnabled(d: GatewayWorld, now: Time, step: GatewayStep) {
    match step
    case TakeForExecution(_, _, _, _) => d.store.clock <= now
    case CallProvider(intent) => d.held[intent] > 0
    case Meanwhile(call) => Enabled(d.store, now, call)
  }

  type GatewayTrace = seq<(Time, GatewayStep)>

  function AfterGatewayCall(d: GatewayWorld, call: (Time, GatewayStep)): GatewayWorld {
    GatewayAfter(d, call.0, call.1)
  }

  ghost predicate GatewayCallEnabled(d: GatewayWorld, call: (Time, GatewayStep)) {
    GatewayEnabled(d, call.0, call.1)
  }

  function GatewayExecute(d: GatewayWorld, trace: GatewayTrace): GatewayWorld {
    Fold(AfterGatewayCall, d, trace)
  }

  ghost predicate GatewayPossible(d: GatewayWorld, trace: GatewayTrace) {
    AllAllowed(AfterGatewayCall, GatewayCallEnabled, d, trace)
  }

  function EmptyGateway(start: Time): GatewayWorld {
    GatewayWorld(EmptyStore(start), multiset{}, multiset{})
  }

  /** Calls made and calls still possible are covered by execution claims. */
  ghost predicate Covered(d: GatewayWorld) {
    && OpenInv(d.store)
    && forall i :: d.held[i] + d.called[i] <= LedgerOf(d.store.journal, i).executions
  }

  /** A granted execution claim is exactly one write. */
  lemma TakeWrites(s: Store, i: Id, worker: string, leaseId: string, seconds: int, now: Time)
    requires ClaimAction(s, i, worker, leaseId, seconds, false, now).Ok?
    ensures i in s.intents
    ensures var lease := Lease(worker, leaseId, now + seconds);
      var next := Taken(Row(s.intents, i), ActionStatus.Executing, lease, now);
      Committed(s, ClaimAction(s, i, worker, leaseId, seconds, false, now))
      == WriteIntent(s, next, Origin(worker, now, None), ExecutionClaimed(leaseId, next.token, lease.expiresAt))
  {
    hide IsApproved, Insert;
  }

  lemma WriteCounts(s: Store, intent: ActionIntent, origin: Origin, event: ActionEvent)
    requires event.ExecutionClaimed?
    ensures var t := WriteIntent(s, intent, origin, event);
      && s.journal <= t.journal
      && LedgerOf(t.journal, intent.intentId).executions == LedgerOf(s.journal, intent.intentId).executions + 1
  {
    hide LedgerOf;
    LedgerInsert(s.journal, DraftOf(ActionStream(intent.intentId), Some(intent.threadId), origin, OfAction(event)),
                 intent.intentId);
  }

  /** A granted execution claim is one more execution in the intent's ledger. */
  lemma TakeCounts(s: Store, i: Id, worker: string, leaseId: string, seconds: int, now: Time)
    requires ClaimAction(s, i, worker, leaseId, seconds, false, now).Ok?
    requires i in s.intents && Row(s.intents, i).intentId == i
    ensures var t := Committed(s, ClaimAction(s, i, worker, leaseId, seconds, false, now));
      && s.journal <= t.journal
      && LedgerOf(t.journal, i).executions == LedgerOf(s.journal, i).executions + 1
  {
    hide LedgerOf, ClaimAction, WriteIntent;
    TakeWrites(s, i, worker, leaseId, seconds, now);
    var lease := Lease(worker, leaseId, now + seconds);
    var next := Taken(s.intents[i], ActionStatus.Executing, lease, now);
    WriteCounts(s, next, Origin(worker, now, None), ExecutionClaimed(leaseId, next.token, lease.expiresAt));
  }

  lemma TakeCovered(d: GatewayWorld, now: Time, step: GatewayStep)
    requires Covered(d) && step.TakeForExecution? && GatewayEnabled(d, now, step)
    ensures Covered(GatewayAfter(d, now, step))
  {
    hide LedgerOf, Sound, Enabled, Apply, After, Faithful, ResourcesInv, SchedulerInv;
    var s := Tick(d.store, now);
    TakeApplies(s, step.intent, step.worker, step.leaseId, step.seconds);
    var call := Gate(TakeIntent(step.intent, step.worker, step.leaseId, step.seconds, false));
    if Apply(s, call).Ok? {
      var t := Apply(s, call).value;
      TakeIsSound(d.store, now, call);
      assert d.store.intents[step.intent].intentId == step.intent by {
        assert BooksOK(d.store, step.intent);
      }
      TakeCounts(s, step.intent, step.worker, step.leaseId, step.seconds, now);
      forall i
        ensures (d.held + multiset{step.intent})[i] + d.called[i] <= LedgerOf(t.journal, i).executions
      {
        ExecutionsGrow(s.journal, t.journal, i);
      }
    }
  }

  lemma TakeApplies(s: Store, intent: Id, worker: string, leaseId: string, seconds: int)
    ensures Apply(s, Gate(TakeIntent(intent, worker, leaseId, seconds, false)))
         == ClaimAction(s, intent, worker, leaseId, seconds, false, s.clock)
  {
    hide ClaimAction, ApplyWork, ApplyDesk, ApplyHold, ApplyRaw, CreateActionIntent, CreateApproval, DecideApproval,
      ExpirePendingApprovals, RecordReceipt, RecoverIncomplete;
  }

  lemma TakeIsSound(s: Store, now: Time, call: Step)
    requires OpenInv(s) && call.Gate? && s.clock <= now && Apply(Tick(s, now), call).Ok?
    ensures OpenInv(Committed(s, Apply(Tick(s, now), call)))
  {
    hide OpenInv, Sound, Apply, Advance, Picks, Sweep, SweepRows;
    AfterSound(s, now, call);
    SoundKeepsOpen(s, After(s, now, call));
  }

  lemma GatewayStepCovered(d: GatewayWorld, now: Time, step: GatewayStep)
    requires Covered(d) && GatewayEnabled(d, now, step)
    ensures Covered(GatewayAfter(d, now, step))
  {
    hide Covered, Apply, After, Enabled;
    match step
    case TakeForExecution(_, _, _, _) => TakeCovered(d, now, step);
    case CallProvider(intent) => CallCovered(d, intent);
    case Meanwhile(call) => MeanwhileCovered(d, now, call);
  }

  lemma CallCovered(d: GatewayWorld, intent: Id)
    requires Covered(d) && d.held[intent] > 0
    ensures Covered(GatewayWorld(d.store, d.held - multiset{intent}, d.called + multiset{intent}))
  {
    hide OpenInv, LedgerOf;
  }

  lemma MeanwhileCovered(d: GatewayWorld, now: Time, call: Step)
    requires Covered(d) && Enabled(d.store, now, call)
    ensures Covered(GatewayWorld(After(d.store, now, call), d.held, d.called))
  {
    hide OpenInv, After, Enabled, LedgerOf, Sound, ActionsAdvance, HoldsLease;
    AfterSound(d.store, now, call);
    SoundKeepsOpen(d.store, After(d.store, now, call));
    forall i
      ensures d.held[i] + d.called[i] <= LedgerOf(After(d.store, now, call).journal, i).executions
    {
      ExecutionsGrow(d.store.journal, After(d.store, now, call).journal, i);
    }
  }

  lemma {:induction false} EveryGatewayRun(d: GatewayWorld, trace: GatewayTrace)
    requires Covered(d) && GatewayPossible(d, trace)
    ensures Covered(GatewayExecute(d, trace))
    decreases |trace|
  {
    hide Covered, GatewayAfter, GatewayEnabled;
    if trace != [] {
      var n := |trace| - 1;
      EveryGatewayRun(d, trace[..n]);
      GatewayStepCovered(GatewayExecute(d, trace[..n]), trace[n].0, trace[n].1);
    }
  }

  /** Worlds some run of gateways and everybody else can lead to. */
  ghost predicate GatewayReached(d: GatewayWorld) {
    exists start: Time, trace: GatewayTrace ::
      GatewayPossible(EmptyGateway(start), trace) && d == GatewayExecute(EmptyGateway(start), trace)
  }

  /** The provider has been called for the intent no more often than execution claims were issued, at most
      once more than receipts have said NOT_FOUND, and not even that often while the intent waits or once
      it is cancelled. */
  ghost predicate CallsBounded(d: GatewayWorld, i: Id) {
    && d.called[i] <= LedgerOf(d.store.journal, i).executions
    && d.called[i] <= 1 + CountOutcome(d.store.receipts, i, ReceiptOutcome.NotFound)
    && (i in d.store.intents &&
          (Row(d.store.intents, i).status.Pending? || Row(d.store.intents, i).status.Cancelled?) ==>
          d.called[i] <= CountOutcome(d.store.receipts, i, ReceiptOutcome.NotFound))
  }

  /** Over every run, whatever comes between claim, provider and receipt. */
  lemma ProviderCallsBounded(d: GatewayWorld, i: Id)
    requires GatewayReached(d)
    ensures CallsBounded(d, i)
  {
    hide Covered, GatewayExecute, GatewayPossible, CallsBounded;
    var start: Time, trace: GatewayTrace :|
      GatewayPossible(EmptyGateway(start), trace) && d == GatewayExecute(EmptyGateway(start), trace);
    EmptyCovered(start);
    EveryGatewayRun(EmptyGateway(start), trace);
    CoveredMeans(d, i);
  }

  lemma EmptyCovered(start: Time)
    ensures Covered(EmptyGateway(start))
  {
    hide LedgerOf;
    EmptyIsSound(start);
    hide OpenInv;
  }

  lemma CoveredMeans(d: GatewayWorld, i: Id)
    requires Covered(d)
    ensures CallsBounded(d, i)
  {
    hide Faithful, SchedulerInv, ResourcesInv, LedgerOf, CountOutcome, GateOK,
      LegalJournal;
    assert BooksOK(d.store, i);
    assert d.held[i] + d.called[i] <= LedgerOf(d.store.journal, i).executions;
  }

  // =========================================================================== the gateway object
  // The gateway for computer actions: intent, approval, claim, provider, receipt, in this order.

  const CAPABILITY := "computer.execute"
  const REQUESTER := "copenguin:computer-action-gateway"
  const LEASE_SECONDS := 30

  /** What `provider.run` does: raise, or answer with an observation. */
  datatype Answer = Raised | Observed(ok: bool, response: Artifact)

  /** What the caller is told, and what is recorded, about the provider's answer. */
  predicate Told(answer: Answer, outcome: ReceiptOutcome, status: ActionStatus) {
    match answer
    case Raised => outcome.Unknown? && status.ReconcileRequired?
    case Observed(ok, _) =>
      if ok then outcome.Succeeded? && status.Succeeded? else outcome.Failed? && status.Failed?
  }

  function OutcomeOf(answer: Answer): ReceiptOutcome {
    match answer
    case Raised => Unknown
    case Observed(ok, _) => if ok then ReceiptOutcome.Succeeded else ReceiptOutcome.Failed
  }

  function ResponseOf(answer: Answer): Option<Artifact> {
    if answer.Observed? then Some(answer.response) else None
  }

  /** What one pass through `_execute_or_resume` meets outside: the clock, the lease id drawn, the rows
      its queries return and the provider's answer. */
  datatype Turn = Turn(started: Time, finished: Time, leaseId: string, due: seq<Id>, affected: seq<Id>, answer: Answer)

  /** The provider has been called no more often than execution claims were issued. */
  ghost predicate CallsCovered(journal: seq<Event>, calls: multiset<Id>) {
    forall i :: calls[i] <= LedgerOf(journal, i).executions
  }

  // ---------------------------------------------------------------- one repository call

  /** A call of the gateway on the repository, at a later time. */
  method GateAt(repository: RuntimeRepository, now: Time, step: GateStep) returns (r: Result<()>)
    requires OpenInv(repository.State()) && repository.clock <= now
    modifies repository
    ensures Commits(ApplyGate(Tick(old(repository.State()), now), step), old(repository.State()), repository.State(), r)
    ensures OpenInv(repository.State()) && repository.clock <= now
    ensures old(repository.State()).journal <= repository.State().journal
    ensures ActionsAdvance(old(repository.State()), repository.State())
  {
    hide OpenInv, ApplyGate, ActionsAdvance;
    ghost var before := repository.State();
    var clock := repository.clock;
    repository.clock := now;
    assert repository.State() == Tick(before, now);
    r := CallGate(repository, step);
    if r.Err? {
      repository.clock := clock;
    }
    GateSafe(before, now, step);
  }

  lemma GateSafe(s: Store, now: Time, step: GateStep)
    requires OpenInv(s) && s.clock <= now
    ensures var t := Committed(s, ApplyGate(Tick(s, now), step));
      OpenInv(t) && s.journal <= t.journal && ActionsAdvance(s, t)
  {
    hide OpenInv, ApplyGate, ActionsAdvance, LeasesAdvance, RowsAdvance;
    ActionsAdvanceReflexive(s);
    if ApplyGate(Tick(s, now), step).Ok? {
      TickSound(s, now);
      GateSound(Tick(s, now), step);
      SoundTransitive(s, Tick(s, now), ApplyGate(Tick(s, now), step).value);
    }
  }

  // ---------------------------------------------------------------- facts about single calls

  /** What was asked of an intent, and what was received for it, outlast t. */
  ghost predicate KeepsTerms(s: Store, t: Store) {
    && t.receipts == s.receipts
    && (forall i :: i in s.intents ==>
          i in t.intents && t.intents[i].requiresApproval == s.intents[i].requiresApproval)
    && (forall a :: a in s.approvals ==>
          a in t.approvals && (t.approvals[a].status == s.approvals[a].status || t.approvals[a].status.Expired?))
  }

  lemma {:induction false} ExpiringKeepsTerms(s: Store, now: Time, rows: seq<Id>)
    ensures KeepsTerms(s, ExpireRows(s, now, rows))
    decreases |rows|
  {
    hide Insert, Due;
    if rows != [] {
      ExpiringKeepsTerms(s, now, rows[..|rows| - 1]);
    }
  }

  lemma {:induction false} CalmingKeepsTerms(s: Store, now: Time, threads: seq<Id>)
    requires ClearAll(s, now, threads).Ok?
    ensures var t := Committed(s, ClearAll(s, now, threads)); t == s.(journal := t.journal, threads := t.threads)
    decreases |threads|
  {
    hide NothingPending;
    if threads != [] {
      var n := |threads| - 1;
      CalmingKeepsTerms(s, now, threads[..n]);
      var earlier := ClearAll(s, now, threads[..n]).value;
    }
  }

  /** The approval of an intent after `create_approval`; nobody else's is touched. */
  lemma RequestFacts(
    s: Store, intentId: Id, risk: string, asker: string, reason: string, ttl: int, policy: Option<Artifact>,
    approvalId: Id, now: Time)
    requires CreateApproval(s, intentId, risk, asker, reason, ttl, policy, approvalId, now).Ok?
    ensures var t := Committed(s, CreateApproval(s, intentId, risk, asker, reason, ttl, policy, approvalId, now));
      && intentId in t.approvalOf && Row(t.approvalOf, intentId) in t.approvals
      && t.intents == s.intents && t.intentByKey == s.intentByKey
      && (forall i :: i in s.approvalOf ==> i in t.approvalOf)
  {
    hide Insert, SetAttention;
    if !(intentId in s.approvalOf && s.approvalOf[intentId] in s.approvals) {
      var approval := ApprovalRequest(
        approvalId, intentId, ApprovalState.Pending, risk, asker, reason, policy, now, now + ttl, now, None, None);
      AttentionFacts(
        OpenApproval(s, approval, Origin(asker, now, None)), s.intents[intentId].threadId,
        AttentionState.NeedsApproval, Origin("approval-gate", now, None));
    }
  }

  /** The row was read from this store or from one before it. */
  ghost predicate ReadBefore(row: ApprovalRequest, approvalId: Id, s: Store) {
    && approvalId in s.approvals && Row(s.approvals, approvalId).intentId == row.intentId
    && (row.status.Pending? || Row(s.approvals, approvalId).status == row.status)
  }

  /** Whatever happens after the read, it stays such a row. */
  lemma ReadStays(s: Store, t: Store, approvalId: Id)
    requires approvalId in s.approvals && ActionsAdvance(s, t)
    ensures ReadBefore(Row(s.approvals, approvalId), approvalId, t)
  {
  }

  /** The input on which a denial ends in a provider call: read as pending, approved by somebody else since.
      The denial is refused as an invalid transition, and the intent can be claimed. */
  lemma DenialAfterApproval(
    s: Store, seen: ApprovalRequest, approvalId: Id, actor: string, evidence: Option<Artifact>, worker: string,
    leaseId: string, now: Time)
    requires ReadBefore(seen, approvalId, s) && Row(s.approvals, approvalId).status.Approved?
    requires seen.intentId in s.intents && Row(s.intents, seen.intentId).status.Pending? && IsApproved(s, seen.intentId)
    ensures DecideApproval(s, approvalId, ApprovalState.Denied, actor, evidence, now) == Err(InvalidTransition)
    ensures ClaimAction(s, seen.intentId, worker, leaseId, LEASE_SECONDS, false, now).Ok?
  {
    hide Insert, ClearAttention, RecordDecision, MarkReconcile;
  }

  // ---------------------------------------------------------------- the gateway

  class ComputerActionGateway {
    const repository: RuntimeRepository
    const worker: string
    const provider: string
    /** The calls of `provider.run` so far, by intent. */
    var calls: multiset<Id>

    constructor (repository: RuntimeRepository, worker: string, provider: string)
      requires OpenInv(repository.State()) && NonBlank(provider)
      ensures this.repository == repository && this.provider == provider && calls == multiset{} && Valid()
    {
      this.repository, this.worker, this.provider, calls := repository, worker, provider, multiset{};
    }

    ghost predicate Valid()
      reads this, repository
    {
      OpenInv(repository.State()) && CallsCovered(repository.State().journal, calls) && NonBlank(provider)
    }

    /** `_execute_or_resume`: at most one provider call, only for a waiting intent, only with the approval
        it needs, and with its receipt if the answer comes within the lease. */
    method ExecuteOrResume(intentId: Id, turn: Turn) returns (r: Result<ActionStatus>)
      requires Valid() && repository.clock <= turn.started <= turn.finished
      modifies repository, `calls
      ensures Valid() && ActionsAdvance(old(repository.State()), repository.State())
      ensures calls == old(calls) || calls == old(calls) + multiset{intentId}
      ensures intentId in old(repository.intents) && !old(repository.intents)[intentId].status.Pending? ==>
        calls == old(calls) && repository.State() == old(repository.State())
        && r == Ok(old(repository.intents)[intentId].status)
      ensures calls != old(calls) ==> intentId in old(repository.intents) && intentId in repository.intents
      ensures calls != old(calls) && old(repository.intents)[intentId].requiresApproval ==>
        IsApproved(repository.State(), intentId)
      ensures calls != old(calls)
              && !HasReceipt(old(repository.receipts), ReceiptOf(intentId, repository.intents[intentId].token)) ==>
        if turn.finished < turn.started + LEASE_SECONDS then
          var receipt := ActionReceipt(
            ReceiptOf(intentId, repository.intents[intentId].token), intentId, OutcomeOf(turn.answer), provider,
            ResponseOf(turn.answer), turn.finished);
          && repository.receipts == old(repository.receipts) + [receipt]
          && r == Ok(AfterReceipt(OutcomeOf(turn.answer))) && Told(turn.answer, receipt.outcome, r.value)
        else
          repository.receipts == old(repository.receipts) && r == Err(StaleLease)
    {
      hide OpenInv, ActionsAdvance, ExpirePendingApprovals, ClaimAction, RecordReceipt, NonBlank, HasReceipt,
        IsApproved, LedgerOf;
      if intentId !in repository.intents {
        ActionsAdvanceReflexive(repository.State());
        return Err(Error.NotFound);
      }
      if !repository.intents[intentId].status.Pending? {
        ActionsAdvanceReflexive(repository.State());
        return Ok(repository.intents[intentId].status);
      }
      ghost var before := repository.State();
      var taken := ClaimForProvider(intentId, turn);
      ghost var claimed := repository.State();
      if taken.Err? {
        CallsStay(before.journal, claimed.journal, calls);
        if taken.error.InvalidTransition? || taken.error.ReconciliationRequired? {
          return Ok(repository.intents[intentId].status);
        }
        return Err(taken.error);
      }
      assert CallsCovered(claimed.journal, calls + multiset{intentId}) by {
        forall x
          ensures (calls + multiset{intentId})[x] <= LedgerOf(claimed.journal, x).executions
        {
          ExecutionsGrow(before.journal, claimed.journal, x);
        }
      }
      calls := calls + multiset{intentId};
      r := StoreAnswer(intentId, turn);
      CallsStay(claimed.journal, repository.State().journal, calls);
      ActionsAdvanceTransitive(before, claimed, repository.State());
    }

    /** `claim_action`: expiry first, then the claim. */
    method ClaimForProvider(intentId: Id, turn: Turn) returns (r: Result<()>)
      requires OpenInv(repository.State()) && repository.clock <= turn.started && intentId in repository.intents
      modifies repository
      ensures OpenInv(repository.State()) && repository.clock <= turn.started
      ensures ActionsAdvance(old(repository.State()), repository.State())
      ensures old(repository.State()).journal <= repository.State().journal
      ensures repository.receipts == old(repository.receipts) && intentId in repository.intents
      ensures repository.intents[intentId].requiresApproval == old(repository.intents[intentId].requiresApproval)
      ensures r.Ok? ==>
        && ClaimedHere(repository.State(), intentId, turn)
        && LedgerOf(repository.State().journal, intentId).executions
           >= LedgerOf(old(repository.State()).journal, intentId).executions + 1
    {
      hide OpenInv, ActionsAdvance, ExpirePendingApprovals, ClaimAction, IsApproved, LedgerOf, CreateActionIntent,
        CreateApproval, DecideApproval, RecordReceipt, RecoverIncomplete;
      ghost var start := repository.State();
      r := GateAt(repository, turn.started, ExpireApprovals(turn.due, turn.affected));
      ghost var calm := repository.State();
      ExpiryFacts(Tick(start, turn.started), turn.started, turn.due, turn.affected);
      if r.Err? {
        return;
      }
      r := GateAt(repository, turn.started, TakeIntent(intentId, worker, turn.leaseId, LEASE_SECONDS, false));
      ActionsAdvanceTransitive(start, calm, repository.State());
      if r.Ok? {
        IntentKeyed(calm, intentId);
        TakeFacts(Tick(calm, turn.started), intentId, worker, turn.leaseId, LEASE_SECONDS, turn.started);
        TakeCounts(Tick(calm, turn.started), intentId, worker, turn.leaseId, LEASE_SECONDS, turn.started);
        ExecutionsGrow(start.journal, calm.journal, intentId);
      }
    }

    /** The intent is under this pass's claim, approved if it has to be. */
    ghost predicate ClaimedHere(s: Store, intentId: Id, turn: Turn) {
      && intentId in s.intents && Row(s.intents, intentId).intentId == intentId
      && Row(s.intents, intentId).status.Executing?
      && Row(s.intents, intentId).lease == Some(Lease(worker, turn.leaseId, turn.started + LEASE_SECONDS))
      && (Row(s.intents, intentId).requiresApproval ==> IsApproved(s, intentId))
    }

    /** `record_action_receipt` with what the provider answered. */
    method StoreAnswer(intentId: Id, turn: Turn) returns (r: Result<ActionStatus>)
      requires OpenInv(repository.State()) && repository.clock <= turn.finished && NonBlank(provider)
      requires ClaimedHere(repository.State(), intentId, turn)
      modifies repository
      ensures OpenInv(repository.State()) && ActionsAdvance(old(repository.State()), repository.State())
      ensures old(repository.State()).journal <= repository.State().journal
      ensures intentId in repository.intents
      ensures repository.intents[intentId].requiresApproval == old(repository.intents[intentId].requiresApproval)
      ensures repository.intents[intentId].requiresApproval ==> IsApproved(repository.State(), intentId)
      ensures repository.intents[intentId].token == old(repository.intents[intentId].token)
      ensures
        var receiptId := ReceiptOf(intentId, repository.intents[intentId].token);
        !HasReceipt(old(repository.receipts), receiptId) ==>
          if turn.finished < turn.started + LEASE_SECONDS then
            && repository.receipts == old(repository.receipts) + [ActionReceipt(
                 receiptId, intentId, OutcomeOf(turn.answer), provider, ResponseOf(turn.answer), turn.finished)]
            && r == Ok(AfterReceipt(OutcomeOf(turn.answer)))
          else
            repository.receipts == old(repository.receipts) && r == Err(StaleLease)
    {
      hide OpenInv, ActionsAdvance, NonBlank, ClaimAction, CreateActionIntent, CreateApproval, DecideApproval,
        ExpirePendingApprovals, RecoverIncomplete;
      ghost var before := repository.State();
      var claim := ClaimHeld(repository.State(), intentId);
      var receiptId := ReceiptOf(intentId, claim.token);
      var stored := GateAt(
        repository, turn.finished,
        Receipt(claim, OutcomeOf(turn.answer), provider, ResponseOf(turn.answer), receiptId));
      ghost var ticked := Tick(before, turn.finished);
      if stored.Ok? {
        return Ok(repository.intents[intentId].status);
      }
      return Err(stored.error);
    }

    /** `submit`: the same request again finds its intent; what is past waiting is not executed again. */
    method Submit(
      thread: Id, runId: Id, request: Artifact, key: string, requiresApproval: bool, intentId: Id, actor: string,
      risk: string, reason: string, ttl: int, policy: Option<Artifact>, approvalId: Id, at: Time, turn: Turn)
      returns (r: Result<ActionStatus>, intent: Option<Id>)
      requires Valid() && repository.clock <= at <= turn.started <= turn.finished
      modifies repository, `calls
      ensures Valid() && ActionsAdvance(old(repository.State()), repository.State())
      ensures calls == old(calls) || (intent.Some? && calls == old(calls) + multiset{intent.value})
      ensures calls != old(calls) && requiresApproval ==> IsApproved(repository.State(), intent.value)
      ensures key in old(repository.intentByKey) && old(repository.intentByKey)[key] in old(repository.intents) ==>
        var stored := old(repository.intentByKey)[key];
        && (intent.Some? ==> intent.value == stored)
        && (!old(repository.intents)[stored].status.Pending? ==> calls == old(calls))
    {
      hide OpenInv, ActionsAdvance, CallsCovered, CreateApproval, NonBlank, ClaimAction, DecideApproval,
        ExpirePendingApprovals, RecordReceipt, RecoverIncomplete;
      ghost var before := repository.State();
      var origin := Origin(actor, at, None);
      var made := GateAt(
        repository, at, CreateIntent(thread, runId, CAPABILITY, request, key, requiresApproval, intentId, actor));
      ghost var created := repository.State();
      CallsStay(before.journal, created.journal, calls);
      if made.Err? {
        return Err(made.error), None;
      }
      var id := repository.intentByKey[key];
      intent := Some(id);
      if !requiresApproval {
        r := ExecuteOrResume(id, turn);
        ActionsAdvanceTransitive(before, created, repository.State());
        return;
      }
      var asked := GateAt(repository, at, AskApproval(id, risk, REQUESTER, reason, ttl, policy, approvalId));
      ghost var waiting := repository.State();
      CallsStay(created.journal, waiting.journal, calls);
      ActionsAdvanceTransitive(before, created, waiting);
      if asked.Err? {
        return Err(asked.error), intent;
      }
      RequestFacts(Tick(created, at), id, risk, REQUESTER, reason, ttl, policy, approvalId, at);
      if repository.approvals[repository.approvalOf[id]].status.Approved? {
        r := ExecuteOrResume(id, turn);
        ActionsAdvanceTransitive(before, waiting, repository.State());
        return;
      }
      return Ok(repository.intents[id].status), intent;
    }

    /** `decide` on an approval as it was read before: the provider is called for an approval that stands
        approved, which a denial can meet only when somebody else approved after the read. */
    method Decide(
      approvalId: Id, seen: Option<ApprovalRequest>, decision: ApprovalState, actor: string,
      evidence: Option<Artifact>, at: Time, due: seq<Id>, affected: seq<Id>, turn: Turn)
      returns (r: Result<ActionStatus>)
      requires Valid() && repository.clock <= at <= turn.started <= turn.finished
      requires seen.Some? ==> ReadBefore(seen.value, approvalId, repository.State())
      modifies repository, `calls
      ensures Valid() && ActionsAdvance(old(repository.State()), repository.State())
      ensures calls != old(calls) ==>
        && seen.Some? && calls == old(calls) + multiset{seen.value.intentId}
        && approvalId in repository.approvals && repository.approvals[approvalId].status.Approved?
        && (decision.Approved?
            || (seen.value.status.Pending? && old(repository.approvals)[approvalId].status.Approved?))
    {
      hide OpenInv, CallsCovered, DecideApproval, ExpirePendingApprovals, NonBlank;
      ghost var before := repository.State();
      if !decision.Approved? && !decision.Denied? {
        return Err(ValueError);
      }
      if seen.None? || seen.value.intentId !in repository.intents {
        return Err(Error.NotFound);
      }
      var intentId := seen.value.intentId;
      if seen.value.status.Pending? {
        var failed := RecordDecisionAt(approvalId, decision, actor, evidence, at, due, affected);
        CallsStay(before.journal, repository.State().journal, calls);
        if failed.Some? {
          return Err(failed.value);
        }
      } else if seen.value.status != decision {
        return Ok(repository.intents[intentId].status);
      }
      if !repository.approvals[approvalId].status.Approved? {
        return Ok(repository.intents[intentId].status);
      }
      ghost var decided := repository.State();
      r := ExecuteOrResume(intentId, turn);
      ActionsAdvanceTransitive(before, decided, repository.State());
    }

    /** `decide_approval`: expiry first; a decision that came too late is not an error here. */
    method RecordDecisionAt(
      approvalId: Id, decision: ApprovalState, actor: string, evidence: Option<Artifact>, at: Time, due: seq<Id>,
      affected: seq<Id>) returns (failed: Option<Error>)
      requires OpenInv(repository.State()) && repository.clock <= at
      requires approvalId in repository.approvals && (decision.Approved? || decision.Denied?)
      modifies repository
      ensures OpenInv(repository.State()) && repository.clock <= at
      ensures ActionsAdvance(old(repository.State()), repository.State())
      ensures old(repository.State()).journal <= repository.State().journal
      ensures approvalId in repository.approvals
      ensures failed.None? && repository.approvals[approvalId].status.Approved? ==>
        decision.Approved? || old(repository.approvals)[approvalId].status.Approved?
    {
      hide OpenInv, ActionsAdvance, ExpirePendingApprovals, ClaimAction, CreateActionIntent, CreateApproval,
        RecordReceipt, RecoverIncomplete, ClearAttention;
      ghost var before := repository.State();
      var calm := GateAt(repository, at, ExpireApprovals(due, affected));
      ghost var expired := repository.State();
      ExpiryFacts(Tick(before, at), at, due, affected);
      if calm.Err? {
        return Some(calm.error);
      }
      var stored := GateAt(repository, at, GateStep.Decide(approvalId, decision, actor, evidence));
      ActionsAdvanceTransitive(before, expired, repository.State());
      ApprovalKeyed(expired, approvalId);
      ghost var ready := Tick(expired, at);
      ghost var row := ready.approvals[approvalId];
      if row.status.Pending? && row.intentId in ready.intents {
        var decided := RecordDecision(ready, approvalId, decision, actor, evidence, at);
        AttentionKept(decided, ready.intents[row.intentId].threadId, at);
      }
      return if stored.Err? && !stored.error.InvalidTransition? then Some(stored.error) else None;
    }

    /** `recover_missing_approvals`: afterwards every listed intent that waits for an approval has one. */
    method RecoverMissingApprovals(
      rows: seq<Id>, ids: seq<Id>, risk: string, reason: string, ttl: int, policy: Option<Artifact>, at: Time)
      returns (r: Result<seq<Id>>)
      requires Valid() && repository.clock <= at && |ids| == |rows|
      modifies repository
      ensures Valid() && ActionsAdvance(old(repository.State()), repository.State())
      ensures r.Ok? ==> forall i :: i in rows && i in repository.intents && Unasked(repository.intents[i]) ==>
        i in repository.approvalOf
      ensures r.Ok? && (forall i :: i in old(repository.intents) && Unasked(old(repository.intents)[i]) ==> i in rows)
        ==> forall i :: i in repository.intents && Unasked(repository.intents[i]) ==> i in repository.approvalOf
      ensures r.Ok? ==> forall i :: i in r.value ==> i !in old(repository.approvalOf) && i in repository.approvalOf
      ensures repository.intents == old(repository.intents)
      ensures forall i :: i in old(repository.approvalOf) ==> i in repository.approvalOf
    {
      hide OpenInv, ActionsAdvance, CallsCovered, CreateApproval, NonBlank, ClaimAction, ClearAttention,
        CreateActionIntent, DecideApproval, ExpirePendingApprovals, RecordReceipt, RecoverIncomplete, Unasked;
      ghost var before := repository.State();
      var recovered: seq<Id> := [];
      ActionsAdvanceReflexive(before);
      for n := 0 to |rows|
        invariant Valid() && repository.clock <= at
        invariant ActionsAdvance(before, repository.State()) && repository.intents == before.intents
        invariant forall i :: i in before.approvalOf ==> i in repository.approvalOf
        invariant forall k :: 0 <= k < n && rows[k] in repository.intents && Unasked(repository.intents[rows[k]]) ==>
          rows[k] in repository.approvalOf
        invariant forall i :: i in recovered ==> i !in before.approvalOf && i in repository.approvalOf
      {
        var intent := rows[n];
        if intent in repository.intents && Unasked(repository.intents[intent]) && intent !in repository.approvalOf {
          ghost var current := repository.State();
          var asked := GateAt(
            repository, at, AskApproval(intent, risk, REQUESTER, reason, ttl, policy, ids[n]));
          CallsStay(current.journal, repository.State().journal, calls);
          ActionsAdvanceTransitive(before, current, repository.State());
          if asked.Err? {
            return Err(asked.error);
          }
          RequestFacts(Tick(current, at), intent, risk, REQUESTER, reason, ttl, policy, ids[n], at);
          recovered := recovered + [intent];
        }
      }
      return Ok(recovered);
    }
  }

  /** A waiting computer action that somebody has to approve. */
  predicate Unasked(intent: ActionIntent) {
    intent.status.Pending? && intent.requiresApproval && intent.capability == CAPABILITY
  }

  lemma CallsStay(before: seq<Event>, after: seq<Event>, calls: multiset<Id>)
    requires before <= after && CallsCovered(before, calls)
    ensures CallsCovered(after, calls)
  {
    hide LedgerOf;
    forall i
      ensures calls[i] <= LedgerOf(after, i).executions
    {
      ExecutionsGrow(before, after, i);
    }
  }

  lemma ExpiryFacts(s: Store, now: Time, rows: seq<Id>, threads: seq<Id>)
    ensures KeepsTerms(s, Committed(s, ExpirePendingApprovals(s, now, rows, threads)))
  {
    hide ExpireRows, ClearAll;
    ExpiringKeepsTerms(s, now, rows);
    if ClearAll(ExpireRows(s, now, rows), now, threads).Ok? {
      CalmingKeepsTerms(ExpireRows(s, now, rows), now, threads);
    }
  }

  lemma AttentionKept(s: Store, thread: Id, now: Time)
    ensures Committed(s, ClearAttention(s, thread, now)).approvals == s.approvals
  {
    hide NothingPending;
    var origin := Origin("approval-gate", now, None);
  }

  ghost predicate KeyedApproval(s: Store, a: Id) {
    a in s.approvals ==> Row(s.approvals, a).approvalId == a
  }

  lemma ApprovalKeyed(s: Store, a: Id)
    requires OpenInv(s)
    ensures KeyedApproval(s, a)
  {
    hide Faithful, SchedulerInv, ResourcesInv, BooksOK, GateOK, LegalJournal;
  }
}
