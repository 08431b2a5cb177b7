/** The safety boundary around external actions: intent, approval, fenced claim, receipt. */
module Actions {
  import opened Prelude
  import opened Vocabulary
  import opened Journal
  import opened Store

  /** `_set_thread_attention_in_transaction`. */
  function SetAttention(s: Store, thread: Id, target: AttentionState, origin: Origin): Result<Store> {
    if thread !in s.threads then Err(Error.NotFound)
    else if s.threads[thread].attention == target then Ok(s)
    else Emit(s, thread, origin, AttentionChanged(target))
  }

  /** Writes one intent row together with the action event that accounts for it. */
  function WriteIntent(s: Store, intent: ActionIntent, origin: Origin, event: ActionEvent): Store {
    var draft := DraftOf(ActionStream(intent.intentId), Some(intent.threadId), origin, OfAction(event));
    s.(journal := Insert(s.journal, draft), intents := s.intents[intent.intentId := intent])
  }

  /** `create_action_intent`. */
  function CreateActionIntent(
    s: Store, threadId: Id, runId: Id, capability: string, request: Artifact, key: string,
    requiresApproval: bool, intentId: Id, origin: Origin): Result<Store>
  {
    if !NonBlank(key) then Err(ValueError) else
    :- Need(threadId in s.threads, Error.NotFound);
    :- Need(runId in s.threads[threadId].runs, Error.NotFound);
    :- Need(!Terminal(s.threads[threadId].runs[runId].state), InvalidTransition);
    StoreIntent(
      s, ActionIntent(intentId, key, threadId, runId, capability, request, requiresApproval, ActionStatus.Pending, None,
                      0, None, origin.at, origin.at), origin)
  }

  /** The intent already stored under the key, or a new one. */
  function StoreIntent(s: Store, intent: ActionIntent, origin: Origin): Result<Store> {
    var key := intent.idempotencyKey;
    if key in s.intentByKey && s.intentByKey[key] in s.intents then
      if SameRequest(s.intents[s.intentByKey[key]], intent) then Ok(s) else Err(IdempotencyConflict)
    else if intent.intentId in s.intents then Err(IntegrityError)
    else
      Ok(WriteIntent(s, intent, origin, IntentCreated(intent.requiresApproval))
           .(intentByKey := s.intentByKey[key := intent.intentId]))
  }

  predicate SameRequest(stored: ActionIntent, intent: ActionIntent) {
    && stored.threadId == intent.threadId && stored.runId == intent.runId && stored.capability == intent.capability
    && stored.request == intent.request && stored.requiresApproval == intent.requiresApproval
  }

  /** `create_approval`. */
  function CreateApproval(
    s: Store, intentId: Id, riskLevel: string, requestedBy: string, reason: string, ttl: int,
    policy: Option<Artifact>, approvalId: Id, now: Time): Result<Store>
  {
    if ttl < 1 then Err(ValueError) else
    :- Need(intentId in s.intents, Error.NotFound);
    :- Need(s.intents[intentId].requiresApproval, InvalidTransition);
    if intentId in s.approvalOf && s.approvalOf[intentId] in s.approvals then
      var stored := s.approvals[s.approvalOf[intentId]];
      :- Need(
        && stored.riskLevel == riskLevel && stored.requestedBy == requestedBy
        && stored.reason == reason && stored.policy == policy, IdempotencyConflict);
      Ok(s)
    else
      :- Need(approvalId !in s.approvals, IntegrityError);
      var approval := ApprovalRequest(
        approvalId, intentId, ApprovalState.Pending, riskLevel, requestedBy, reason, policy, now, now + ttl, now,
        None, None);
      SetAttention(
        OpenApproval(s, approval, Origin(requestedBy, now, None)),
        s.intents[intentId].threadId, AttentionState.NeedsApproval, Origin("approval-gate", now, None))
  }

  function OpenApproval(s: Store, approval: ApprovalRequest, origin: Origin): Store {
    var logged := Log(s, ApprovalStream(approval.approvalId), OwnerThread(s, approval.intentId), origin,
      OfApproval(ApprovalRequested(approval.intentId)));
    logged.(
      approvals := s.approvals[approval.approvalId := approval],
      approvalOf := s.approvalOf[approval.intentId := approval.approvalId])
  }

  /** No approval of the Thread's actions is waiting for a decision. */
  predicate NothingPending(s: Store, thread: Id) {
    forall a :: a in s.approvals && s.approvals[a].status.Pending? ==>
      s.approvals[a].intentId in s.intents ==> s.intents[s.approvals[a].intentId].threadId != thread
  }

  /** Cancels the intent if it is still waiting, as the approval's own UPDATE ... WHERE does. */
  function DropIntent(intents: map<Id, ActionIntent>, intentId: Id, reason: string, at: Time): map<Id, ActionIntent> {
    if intentId in intents && intents[intentId].status.Pending? then
      intents[intentId := intents[intentId].(
        status := ActionStatus.Cancelled, lastError := Some(reason), updatedAt := at)]
    else intents
  }

  function OwnerThread(s: Store, intentId: Id): Option<Id> {
    if intentId in s.intents then Some(s.intents[intentId].threadId) else None
  }

  /** Writes a resolved approval row with its event. */
  function WriteApproval(s: Store, approval: ApprovalRequest, origin: Origin, event: ApprovalEvent): Store {
    Log(s, ApprovalStream(approval.approvalId), OwnerThread(s, approval.intentId), origin, OfApproval(event))
      .(approvals := s.approvals[approval.approvalId := approval])
  }

  /** A decision on a pending approval; a denial drops the waiting intent in the same write. */
  function RecordDecision(
    s: Store, approvalId: Id, decision: ApprovalState, actor: string, evidence: Option<Artifact>, at: Time): Store
  {
    if approvalId !in s.approvals then s
    else
      var row := s.approvals[approvalId];
      var decided := row.(status := decision, updatedAt := at, resolvedBy := Some(actor), evidence := evidence);
      var intents := if decision.Denied? then DropIntent(s.intents, row.intentId, DENIED, at) else s.intents;
      WriteApproval(s, decided, Origin(actor, at, None), ApprovalDecided(row.intentId, decision)).(intents := intents)
  }

  /** `_expire_approval_row`. */
  function ExpireApproval(s: Store, approvalId: Id, at: Time): Store
    requires approvalId in s.approvals
  {
    var row := s.approvals[approvalId];
    WriteApproval(
      s, row.(status := ApprovalState.Expired, updatedAt := at), Origin("approval-gate", at, None),
      ApprovalExpired(row.intentId))
      .(intents := DropIntent(s.intents, row.intentId, EXPIRED, at))
  }

  const DENIED := "action denied by approval gate"
  const EXPIRED := "approval expired"

  /** The transaction of `decide_approval` that records the decision. */
  function DecideApproval(
    s: Store, approvalId: Id, decision: ApprovalState, actor: string, evidence: Option<Artifact>, now: Time)
    : Result<Store>
  {
    if !decision.Approved? && !decision.Denied? then Err(ValueError) else
    :- Need(approvalId in s.approvals, Error.NotFound);
    var row := s.approvals[approvalId];
    if row.status == decision then Ok(s)
    else if !row.status.Pending? then Err(InvalidTransition)
    else
      var decided := RecordDecision(s, approvalId, decision, actor, evidence, now);
      :- Need(row.intentId in s.intents, Error.NotFound);
      ClearAttention(decided, s.intents[row.intentId].threadId, now)
  }

  function ClearAttention(s: Store, thread: Id, now: Time): Result<Store> {
    if NothingPending(s, thread) then
      SetAttention(s, thread, AttentionState.Calm, Origin("approval-gate", now, None))
    else Ok(s)
  }

  predicate Due(s: Store, approvalId: Id, now: Time) {
    approvalId in s.approvals && s.approvals[approvalId].status.Pending? && s.approvals[approvalId].expiresAt <= now
  }

  function ExpireRows(s: Store, now: Time, rows: seq<Id>): Store {
    if rows == [] then s
    else
      var rest := ExpireRows(s, now, rows[..|rows| - 1]);
      var a := rows[|rows| - 1];
      if Due(rest, a, now) then ExpireApproval(rest, a, now) else rest
  }

  function ClearAll(s: Store, now: Time, threads: seq<Id>): Result<Store> {
    if threads == [] then Ok(s)
    else
      var rest :- ClearAll(s, now, threads[..|threads| - 1]);
      ClearAttention(rest, threads[|threads| - 1], now)
  }

  /** `expire_pending_approvals`; `rows` is its query's answer, `threads` the set of their Threads
      in the order it is walked. */
  function ExpirePendingApprovals(s: Store, now: Time, rows: seq<Id>, threads: seq<Id>): Result<Store> {
    ClearAll(ExpireRows(s, now, rows), now, threads)
  }

  predicate ActionLapsed(intent: ActionIntent, now: Time) {
    && (intent.status.Executing? || intent.status.Recovering?)
    && intent.lease.Some? && intent.lease.value.expiresAt <= now
  }

  /** `_mark_action_reconcile_required`. */
  function MarkReconcile(s: Store, intentId: Id, now: Time): Store {
    if intentId !in s.intents then s
    else
      var row := s.intents[intentId];
      WriteIntent(
        s,
        row.(status := ActionStatus.ReconcileRequired, lease := None,
             lastError := Some("action lease expired before a durable receipt"), updatedAt := now),
        Origin("recovery", now, None), ActionEvent.ReconciliationRequired(row.status, row.token))
  }

  predicate IsApproved(s: Store, intentId: Id) {
    && intentId in s.approvalOf && s.approvalOf[intentId] in s.approvals
    && s.approvals[s.approvalOf[intentId]].status.Approved?
  }

  /** The claim transaction of `claim_action`. A lapse noticed here is kept only if the call succeeds. */
  function ClaimAction(
    s: Store, intentId: Id, worker: string, leaseId: string, seconds: int, reconciling: bool, now: Time)
    : Result<Store>
  {
    if seconds < 1 then Err(ValueError)
    else if intentId !in s.intents then Err(Error.NotFound)
    else TakeAction(NoticeLapse(s, intentId, now), intentId, Lease(worker, leaseId, now + seconds), reconciling, now)
  }

  function NoticeLapse(s: Store, intentId: Id, now: Time): Store
    requires intentId in s.intents
  {
    if ActionLapsed(s.intents[intentId], now) then MarkReconcile(s, intentId, now) else s
  }

  function TakeAction(s: Store, intentId: Id, lease: Lease, reconciling: bool, now: Time): Result<Store> {
    if intentId !in s.intents then Err(Error.NotFound)
    else if !reconciling && s.intents[intentId].requiresApproval && !IsApproved(s, intentId) then
      Err(InvalidTransition)
    else
      var row := s.intents[intentId];
      var required := if reconciling then ActionStatus.ReconcileRequired else ActionStatus.Pending;
      if row.status != required then
        Err(if row.status.ReconcileRequired? then Error.ReconciliationRequired else InvalidTransition)
      else
        var status := if reconciling then ActionStatus.Recovering else ActionStatus.Executing;
        var next := Taken(row, status, lease, now);
        var event :=
          if reconciling then ReconciliationClaimed(lease.leaseId, next.token, lease.expiresAt)
          else ExecutionClaimed(lease.leaseId, next.token, lease.expiresAt);
        Ok(WriteIntent(s, next, Origin(lease.owner, now, None), event))
  }

  function Taken(row: ActionIntent, status: ActionStatus, lease: Lease, at: Time): ActionIntent {
    row.(status := status, token := row.token + 1, lease := Some(lease), updatedAt := at)
  }

  /** The claim a successful ClaimAction hands out. */
  function ClaimHeld(s: Store, intentId: Id): ActionClaim
    requires intentId in s.intents && s.intents[intentId].lease.Some?
  {
    var row := s.intents[intentId];
    ActionClaim(
      intentId, row.lease.value.owner, row.lease.value.leaseId, row.token, row.lease.value.expiresAt,
      row.status.Recovering?)
  }

  /** `_assert_live_action_claim`. */
  predicate LiveAction(s: Store, claim: ActionClaim, now: Time) {
    && claim.intentId in s.intents
    && var row := s.intents[claim.intentId];
    && row.status == (if claim.reconciliation then ActionStatus.Recovering else ActionStatus.Executing)
    && row.lease.Some?
    && row.lease.value.owner == claim.worker && row.lease.value.leaseId == claim.leaseId
    && row.token == claim.token
    && row.lease.value.expiresAt > now
  }

  function AfterReceipt(outcome: ReceiptOutcome): ActionStatus {
    match outcome
    case Succeeded => ActionStatus.Succeeded
    case Failed => ActionStatus.Failed
    case NotFound => ActionStatus.Pending
    case Unknown => ActionStatus.ReconcileRequired
  }

  predicate HasReceipt(receipts: seq<ActionReceipt>, receiptId: Id) {
    exists i :: 0 <= i < |receipts| && receipts[i].receiptId == receiptId
  }

  /** `record_action_receipt`. */
  function RecordReceipt(
    s: Store, claim: ActionClaim, outcome: ReceiptOutcome, provider: string, response: Option<Artifact>,
    receiptId: Id, now: Time): Result<Store>
  {
    if !NonBlank(provider) then Err(ValueError)
    else if HasReceipt(s.receipts, receiptId) then
      if exists i :: 0 <= i < |s.receipts| && s.receipts[i].receiptId == receiptId
           && s.receipts[i].intentId == claim.intentId && s.receipts[i].outcome == outcome
           && s.receipts[i].provider == provider && s.receipts[i].response == response
      then Ok(s) else Err(IdempotencyConflict)
    else
      :- Need(LiveAction(s, claim, now), StaleLease);
      var row := s.intents[claim.intentId];
      var next := AfterReceipt(outcome);
      var settled := row.(
        status := next, lease := None, updatedAt := now,
        lastError := if next.ReconcileRequired? then Some("receipt was inconclusive") else None);
      var receipt := ActionReceipt(receiptId, claim.intentId, outcome, provider, response, now);
      Ok(WriteIntent(s, settled, Origin(claim.worker, now, None),
        ReceiptRecorded(receiptId, outcome, next, claim.token)).(receipts := s.receipts + [receipt]))
  }

  /** `recover_incomplete_actions` over the rows its query returned. */
  function RecoverIncomplete(s: Store, now: Time, rows: seq<Id>): Store {
    if rows == [] then s
    else
      var rest := RecoverIncomplete(s, now, rows[..|rows| - 1]);
      var i := rows[|rows| - 1];
      if i in rest.intents && ActionLapsed(rest.intents[i], now) then MarkReconcile(rest, i, now) else rest
  }

  predicate WaitingFor(s: Store, intentId: Id, runId: Id) {
    intentId in s.intents && s.intents[intentId].runId == runId && s.intents[intentId].status.Pending?
  }

  function CancelIntent(s: Store, intentId: Id, reason: string, origin: Origin): Store {
    if intentId !in s.intents then s
    else
      var intent := s.intents[intentId];
      var quiet :=
        if intentId in s.approvalOf && s.approvalOf[intentId] in s.approvals
           && s.approvals[s.approvalOf[intentId]].status.Pending?
        then
          var row := s.approvals[s.approvalOf[intentId]];
          WriteApproval(
            s, row.(status := ApprovalState.Cancelled, updatedAt := origin.at, resolvedBy := Some(origin.actor)),
            origin, ApprovalCancelled(intentId))
        else s;
      WriteIntent(quiet,
        intent.(status := ActionStatus.Cancelled, lastError := Some(reason), updatedAt := origin.at),
        origin, IntentCancelled(reason))
  }

  /** `_cancel_pending_run_actions` over the rows its query returned. */
  function CancelPendingActions(s: Store, runId: Id, rows: seq<Id>, reason: string, origin: Origin): Store {
    if rows == [] then s
    else
      var rest := CancelPendingActions(s, runId, rows[..|rows| - 1], reason, origin);
      var i := rows[|rows| - 1];
      if WaitingFor(rest, i, runId) then CancelIntent(rest, i, reason, origin) else rest
  }

  // =========================================================================== what keeps the books
  // Exact accounting of external effects, the approval gate, and no blind retry.

  /** What the journal says happened to one intent. `unresolved` is set when an effect may have
      happened without a receipt, and only a NOT_FOUND receipt clears it. */
  datatype Ledger = Ledger(
    status: Option<ActionStatus>,
    executions: nat,
    reconciliations: nat,
    notFound: nat,
    successes: nat,
    failures: nat,
    unresolved: bool)

  const Unopened := Ledger(None, 0, 0, 0, 0, 0, false)

  function FoldAction(l: Ledger, event: ActionEvent): Ledger {
    match event
    case IntentCreated(_) => l.(status := Some(ActionStatus.Pending))
    case ExecutionClaimed(_, _, _) =>
      l.(status := Some(ActionStatus.Executing), executions := l.executions + 1)
    case ReconciliationClaimed(_, _, _) =>
      l.(status := Some(ActionStatus.Recovering), reconciliations := l.reconciliations + 1)
    case ReconciliationRequired(_, _) =>
      l.(status := Some(ActionStatus.ReconcileRequired), unresolved := true)
    case ReceiptRecorded(_, outcome, next, _) =>
      l.(status := Some(next),
         notFound := l.notFound + if outcome.NotFound? then 1 else 0,
         successes := l.successes + if outcome.Succeeded? then 1 else 0,
         failures := l.failures + if outcome.Failed? then 1 else 0,
         unresolved := if outcome.NotFound? then false else if outcome.Unknown? then true else l.unresolved)
    case IntentCancelled(_) => l.(status := Some(ActionStatus.Cancelled))
  }

  /** A refusal or an expiry drops a waiting intent without an event in the intent's own stream,
      so the ledger has to read the approval streams too. */
  function FoldApproval(l: Ledger, intentId: Id, event: ApprovalEvent): Ledger {
    match event
    case ApprovalDecided(intent, decision) =>
      if intent == intentId && decision.Denied? && l.status == Some(ActionStatus.Pending)
      then l.(status := Some(ActionStatus.Cancelled)) else l
    case ApprovalExpired(intent) =>
      if intent == intentId && l.status == Some(ActionStatus.Pending)
      then l.(status := Some(ActionStatus.Cancelled)) else l
    case _ => l
  }

  function FoldLedger(l: Ledger, intentId: Id, event: Event): Ledger {
    if event.stream == ActionStream(intentId) && event.body.OfAction? then FoldAction(l, event.body.action)
    else if event.stream.ApprovalStream? && event.body.OfApproval? then
      FoldApproval(l, intentId, event.body.approval)
    else l
  }

  function LedgerOf(journal: seq<Event>, intentId: Id): Ledger {
    if journal == [] then Unopened
    else FoldLedger(LedgerOf(journal[..|journal| - 1], intentId), intentId, journal[|journal| - 1])
  }

  function CountOutcome(receipts: seq<ActionReceipt>, intentId: Id, outcome: ReceiptOutcome): nat {
    if receipts == [] then 0
    else
      var last := receipts[|receipts| - 1];
      CountOutcome(receipts[..|receipts| - 1], intentId, outcome)
      + if last.intentId == intentId && last.outcome == outcome then 1 else 0
  }

  /** The books of one intent balance. */
  ghost predicate Balanced(l: Ledger) {
    && l.status.Some?
    && var status := l.status.value;
    && (if status.Pending? || status.Cancelled? then l.executions == l.notFound
        else l.executions == l.notFound + 1)
    && l.successes == (if status.Succeeded? then 1 else 0)
    && l.failures == (if status.Failed? then 1 else 0)
    && (status.Pending? || status.Executing? || status.Cancelled? ==> !l.unresolved)
    && (status.ReconcileRequired? ==> l.unresolved)
  }

  /** An action event may occur only in the status it leads out of. */
  ghost predicate Legal(l: Ledger, event: ActionEvent) {
    match event
    case IntentCreated(_) => l == Unopened
    case ExecutionClaimed(_, token, _) =>
      l.status == Some(ActionStatus.Pending) && !l.unresolved && token == l.executions + l.reconciliations + 1
    case ReconciliationClaimed(_, token, _) =>
      l.status == Some(ActionStatus.ReconcileRequired) && token == l.executions + l.reconciliations + 1
    case ReconciliationRequired(_, _) =>
      l.status == Some(ActionStatus.Executing) || l.status == Some(ActionStatus.Recovering)
    case ReceiptRecorded(_, outcome, next, _) =>
      && (l.status == Some(ActionStatus.Executing) || l.status == Some(ActionStatus.Recovering))
      && next == AfterReceipt(outcome)
    case IntentCancelled(_) => l.status == Some(ActionStatus.Pending)
  }

  ghost predicate LegalJournal(journal: seq<Event>) {
    forall i :: 0 <= i < |journal| && journal[i].stream.ActionStream? && journal[i].body.OfAction? ==>
      Legal(LedgerOf(journal[..i], journal[i].stream.intent), journal[i].body.action)
  }

  ghost predicate RowFits(l: Ledger, i: Id, row: ActionIntent) {
    && row.intentId == i && Balanced(l) && l.status == Some(row.status) && row.token == l.executions + l.reconciliations
    && (row.lease.Some? <==> row.status.Executing? || row.status.Recovering?)
  }

  /** Each stored intent agrees with its ledger and its receipts. */
  ghost predicate BooksOK(s: Store, i: Id) {
    var l := LedgerOf(s.journal, i);
    && (i !in s.intents ==> l == Unopened)
    && (i in s.intents ==> RowFits(l, i, Row(s.intents, i)))
    && CountOutcome(s.receipts, i, ReceiptOutcome.NotFound) == l.notFound
    && CountOutcome(s.receipts, i, ReceiptOutcome.Succeeded) == l.successes
    && CountOutcome(s.receipts, i, ReceiptOutcome.Failed) == l.failures
  }

  /** The approval of an intent and the intent's status agree. */
  ghost predicate GateOK(s: Store, i: Id) {
    && (i in s.approvalOf ==>
          && i in s.intents && Row(s.intents, i).requiresApproval
          && Row(s.approvalOf, i) in s.approvals
          && Row(s.approvals, Row(s.approvalOf, i)).intentId == i
          && var status := Row(s.approvals, Row(s.approvalOf, i)).status;
          && (status.Denied? || status.Expired? || status.Cancelled? ==> Row(s.intents, i).status.Cancelled?)
          && (status.Pending? ==> Row(s.intents, i).status.Pending? || Row(s.intents, i).status.Cancelled?))
    && (i in s.intents && Row(s.intents, i).requiresApproval ==>
          Row(s.intents, i).status.Pending? || Row(s.intents, i).status.Cancelled? || IsApproved(s, i))
  }

  ghost predicate ApprovalsIndexed(s: Store) {
    forall a :: a in s.approvals ==> Indexed(s, a, Row(s.approvals, a))
  }

  ghost predicate Indexed(s: Store, a: Id, row: ApprovalRequest) {
    row.approvalId == a && row.intentId in s.approvalOf && Row(s.approvalOf, row.intentId) == a
  }

  ghost predicate ActionsInv(s: Store) {
    && LegalJournal(s.journal)
    && (forall i :: BooksOK(s, i))
    && (forall i :: GateOK(s, i))
    && ApprovalsIndexed(s)
  }

  /** Resolved approvals and cancelled intents are final; intents and approvals never vanish. */
  ghost predicate ActionsAdvance(s: Store, t: Store) {
    && (forall a :: a in s.approvals ==> a in t.approvals && ApprovalKept(Row(s.approvals, a), Row(t.approvals, a)))
    && (forall i :: i in s.intents ==> i in t.intents && IntentKept(Row(s.intents, i), Row(t.intents, i)))
  }

  predicate ApprovalKept(was: ApprovalRequest, row: ApprovalRequest) {
    row.intentId == was.intentId && (!was.status.Pending? ==> row.status == was.status)
  }

  predicate IntentKept(was: ActionIntent, row: ActionIntent) {
    && row.threadId == was.threadId && row.runId == was.runId && was.token <= row.token
    && (was.status.Cancelled? || was.status.Succeeded? || was.status.Failed? ==> row.status == was.status)
  }

  lemma ActionsAdvanceTransitive(s: Store, t: Store, u: Store)
    requires ActionsAdvance(s, t) && ActionsAdvance(t, u)
    ensures ActionsAdvance(s, u)
  {
    forall a | a in s.approvals
      ensures a in u.approvals
    {
      assert a in t.approvals;
    }
    forall i | i in s.intents
      ensures i in u.intents
    {
      assert i in t.intents;
    }
  }

  lemma ActionsAdvanceReflexive(s: Store)
    ensures ActionsAdvance(s, s)
  {
  }

  lemma LedgerInsert(journal: seq<Event>, draft: Draft, i: Id)
    ensures LedgerOf(Insert(journal, draft), i) == FoldLedger(LedgerOf(journal, i), i, Envelope(journal, draft))
  {
    var next := Insert(journal, draft);
    assert next[..|next| - 1] == journal;
  }

  lemma LegalInsert(journal: seq<Event>, draft: Draft)
    requires LegalJournal(journal)
    requires forall intent, event :: draft.stream == ActionStream(intent) && draft.body == OfAction(event) ==>
      Legal(LedgerOf(journal, intent), event)
    ensures LegalJournal(Insert(journal, draft))
  {
    hide LedgerOf, Legal;
    var next := Insert(journal, draft);
    forall i | 0 <= i < |next| && next[i].stream.ActionStream? && next[i].body.OfAction?
      ensures Legal(LedgerOf(next[..i], next[i].stream.intent), next[i].body.action)
    {
      assert next[..i] == journal[..i];
      assert i == |journal| ==> journal[..i] == journal;
    }
  }

  lemma CountAppend(receipts: seq<ActionReceipt>, r: ActionReceipt, i: Id, outcome: ReceiptOutcome)
    ensures CountOutcome(receipts + [r], i, outcome)
         == CountOutcome(receipts, i, outcome) + if r.intentId == i && r.outcome == outcome then 1 else 0
  {
    assert (receipts + [r])[..|receipts|] == receipts;
  }

  lemma {:induction false} LedgerQuiet(before: seq<Event>, more: seq<Event>, i: Id)
    requires forall e :: e in more ==> !InArea(e.stream, Actions)
    ensures LedgerOf(before + more, i) == LedgerOf(before, i)
    decreases |more|
  {
    if more == [] {
      assert before + more == before;
    } else {
      assert (before + more)[..|before + more| - 1] == before + more[..|more| - 1];
      LedgerQuiet(before, more[..|more| - 1], i);
    }
  }

  /** Work elsewhere in the store leaves the books and the gate alone. */
  lemma QuietKeepsActions(s: Store, t: Store)
    requires ActionsInv(s) && Quiet(s, t, Actions)
    ensures ActionsInv(t) && ActionsAdvance(s, t)
  {
    hide Balanced, LedgerOf, Legal;
    forall i
      ensures BooksOK(t, i) && GateOK(t, i)
    {
      assert t.journal == s.journal + t.journal[|s.journal|..];
      LedgerQuiet(s.journal, t.journal[|s.journal|..], i);
      assert BooksOK(s, i) && GateOK(s, i);
    }
    forall k | 0 <= k < |t.journal| && t.journal[k].stream.ActionStream? && t.journal[k].body.OfAction?
      ensures Legal(LedgerOf(t.journal[..k], t.journal[k].stream.intent), t.journal[k].body.action)
    {
      assert k < |s.journal|;
      assert t.journal[..k] == s.journal[..k];
    }
  }

  /** What a write of one intent row with its event must respect, `added` being its new receipts. */
  ghost predicate SoundIntent(s: Store, intent: ActionIntent, event: ActionEvent, added: seq<ActionReceipt>) {
    var i := intent.intentId;
    var l := LedgerOf(s.journal, i);
    var next := FoldAction(l, event);
    && Legal(l, event)
    && next.status == Some(intent.status)
    && intent.token == next.executions + next.reconciliations
    && (intent.lease.Some? <==> intent.status.Executing? || intent.status.Recovering?)
    && (if event.ReceiptRecorded? then
          |added| == 1 && added[0].intentId == i && added[0].outcome == event.outcome
        else added == [])
    && (i in s.intents ==>
          && !event.IntentCreated?
          && s.intents[i].requiresApproval == intent.requiresApproval
          && s.intents[i].threadId == intent.threadId && s.intents[i].runId == intent.runId)
    && (i !in s.intents ==> event.IntentCreated?)
    && FitsGate(s, intent)
  }

  /** The state the row gets is one its approval admits. */
  ghost predicate FitsGate(s: Store, intent: ActionIntent) {
    var i := intent.intentId;
    && (intent.requiresApproval && !intent.status.Pending? && !intent.status.Cancelled? ==> IsApproved(s, i))
    && (i in s.approvalOf && s.approvalOf[i] in s.approvals && !intent.status.Cancelled? ==>
          var status := s.approvals[s.approvalOf[i]].status;
          status.Approved? || (status.Pending? && intent.status.Pending?))
  }

  lemma FittingKeepsGate(s: Store, t: Store, intent: ActionIntent, i: Id)
    requires GateOK(s, i) && FitsGate(s, intent) && t.intents == s.intents[intent.intentId := intent]
    requires intent.intentId in s.intents ==>
      Row(s.intents, intent.intentId).requiresApproval == intent.requiresApproval
    requires t.approvals == s.approvals && t.approvalOf == s.approvalOf
    ensures GateOK(t, i)
  {
  }

  lemma SoundIntentKeepsInv(s: Store, intent: ActionIntent, origin: Origin, event: ActionEvent,
      added: seq<ActionReceipt>)
    requires ActionsInv(s) && SoundIntent(s, intent, event, added)
    ensures var t := WriteIntent(s, intent, origin, event).(receipts := s.receipts + added);
      ActionsInv(t) && ActionsAdvance(s, t)
  {
    var t := WriteIntent(s, intent, origin, event).(receipts := s.receipts + added);
    assert LegalJournal(t.journal) by {
      LegalInsert(s.journal, DraftOf(ActionStream(intent.intentId), Some(intent.threadId), origin, OfAction(event)));
    }
    hide LegalJournal, LedgerOf, CountOutcome, Insert, GateOK, FitsGate;
    forall i
      ensures BooksOK(t, i)
    {
      SoundIntentKeepsBooks(s, intent, origin, event, added, i);
    }
    assert BooksOK(s, intent.intentId);
    assert ActionsAdvance(s, t);
    hide BooksOK, Legal, ActionsAdvance;
    forall i
      ensures GateOK(t, i)
    {
      FittingKeepsGate(s, t, intent, i);
    }
  }

  lemma SoundIntentKeepsBooks(
    s: Store, intent: ActionIntent, origin: Origin, event: ActionEvent, added: seq<ActionReceipt>, i: Id)
    requires BooksOK(s, i) && SoundIntent(s, intent, event, added)
    ensures BooksOK(WriteIntent(s, intent, origin, event).(receipts := s.receipts + added), i)
  {
    hide Insert, LedgerOf, CountOutcome, GateOK, IsApproved, LegalJournal, FoldApproval;
    var draft := DraftOf(ActionStream(intent.intentId), Some(intent.threadId), origin, OfAction(event));
    LedgerInsert(s.journal, draft, i);
    if event.ReceiptRecorded? {
      assert s.receipts + added == s.receipts + [added[0]];
      CountAppend(s.receipts, added[0], i, ReceiptOutcome.NotFound);
      CountAppend(s.receipts, added[0], i, ReceiptOutcome.Succeeded);
      CountAppend(s.receipts, added[0], i, ReceiptOutcome.Failed);
    } else {
      assert s.receipts + added == s.receipts;
    }
  }

  lemma NewIntentKeepsInv(s: Store, intent: ActionIntent, origin: Origin, index: map<string, Id>)
    requires ActionsInv(s)
    requires intent.intentId !in s.intents
    requires intent.status.Pending? && intent.lease.None? && intent.token == 0
    ensures var t := WriteIntent(s, intent, origin, IntentCreated(intent.requiresApproval)).(intentByKey := index);
      ActionsInv(t) && ActionsAdvance(s, t)
  {
    var u := WriteIntent(s, intent, origin, IntentCreated(intent.requiresApproval));
    assert SoundIntent(s, intent, IntentCreated(intent.requiresApproval), []) by {
      assert BooksOK(s, intent.intentId) && GateOK(s, intent.intentId);
    }
    SoundIntentKeepsInv(s, intent, origin, IntentCreated(intent.requiresApproval), []);
    assert u.(receipts := s.receipts + []) == u;
    SameActions(u, u.(intentByKey := index));
  }

  /** The idempotency index plays no part in the books. */
  lemma SameActions(s: Store, t: Store)
    requires ActionsInv(s)
    requires s.journal == t.journal && s.intents == t.intents && s.approvals == t.approvals
    requires s.approvalOf == t.approvalOf && s.receipts == t.receipts
    ensures ActionsInv(t) && ActionsAdvance(s, t)
  {
    hide Balanced, LedgerOf, LegalJournal;
    forall i
      ensures BooksOK(t, i) && GateOK(t, i)
    {
      assert BooksOK(s, i) && GateOK(s, i);
    }
  }

  lemma OpenedKeepsGate(s: Store, t: Store, approval: ApprovalRequest, i: Id)
    requires GateOK(s, i) && GateOK(s, approval.intentId) && t.intents == s.intents
    requires approval.intentId in s.intents && Row(s.intents, approval.intentId).requiresApproval
    requires approval.intentId !in s.approvalOf || Row(s.approvalOf, approval.intentId) !in s.approvals
    requires approval.approvalId !in s.approvals && approval.status.Pending?
    requires t.approvals == s.approvals[approval.approvalId := approval]
    requires t.approvalOf == s.approvalOf[approval.intentId := approval.approvalId]
    ensures GateOK(t, i)
  {
  }

  lemma OpenedKeepsIndex(s: Store, t: Store, approval: ApprovalRequest)
    requires ApprovalsIndexed(s) && approval.approvalId !in s.approvals
    requires approval.intentId !in s.approvalOf || Row(s.approvalOf, approval.intentId) !in s.approvals
    requires t.approvals == s.approvals[approval.approvalId := approval]
    requires t.approvalOf == s.approvalOf[approval.intentId := approval.approvalId]
    ensures ApprovalsIndexed(t)
  {
    forall a | a in t.approvals
      ensures Indexed(t, a, Row(t.approvals, a))
    {
      assert a != approval.approvalId ==> Indexed(s, a, Row(s.approvals, a));
    }
  }

  lemma OpenApprovalKeepsInv(s: Store, approval: ApprovalRequest, origin: Origin)
    requires ActionsInv(s)
    requires approval.intentId in s.intents && Row(s.intents, approval.intentId).requiresApproval
    requires approval.intentId !in s.approvalOf || Row(s.approvalOf, approval.intentId) !in s.approvals
    requires approval.approvalId !in s.approvals && approval.status.Pending?
    ensures ActionsInv(OpenApproval(s, approval, origin)) && ActionsAdvance(s, OpenApproval(s, approval, origin))
  {
    var t := OpenApproval(s, approval, origin);
    var draft := DraftOf(ApprovalStream(approval.approvalId), OwnerThread(s, approval.intentId), origin,
                         OfApproval(ApprovalRequested(approval.intentId)));
    LegalInsert(s.journal, draft);
    OpenedKeepsIndex(s, t, approval);
    hide LegalJournal, OwnerThread, CountOutcome, Legal, RowFits, GateOK, LedgerOf, Insert, ApprovalsIndexed;
    forall i
      ensures BooksOK(t, i)
    {
      LedgerInsert(s.journal, draft, i);
      assert BooksOK(s, i);
    }
    hide BooksOK;
    forall i
      ensures GateOK(t, i)
    {
      assert GateOK(s, i) && GateOK(s, approval.intentId);
      OpenedKeepsGate(s, t, approval, i);
    }
  }

  /** The write of a decision or an expiry, with the intents it leaves behind. */
  ghost predicate SoundResolution(
    s: Store, approval: ApprovalRequest, event: ApprovalEvent, intents: map<Id, ActionIntent>)
  {
    var a, i := approval.approvalId, approval.intentId;
    && a in s.approvals && Row(s.approvals, a).status.Pending? && Row(s.approvals, a).intentId == i
    && ((approval.status.Approved? && event == ApprovalDecided(i, ApprovalState.Approved) && intents == s.intents)
        || (exists reason, at ::
              && intents == DropIntent(s.intents, i, reason, at)
              && ((approval.status.Denied? && event == ApprovalDecided(i, ApprovalState.Denied))
                  || (approval.status.Expired? && event == ApprovalExpired(i)))))
  }

  /** A resolution touches no other intent's ledger. */
  lemma ForeignResolution(l: Ledger, i: Id, event: Event, target: Id)
    requires event.stream.ApprovalStream? && i != target
    requires match event.body
      case OfApproval(ApprovalDecided(intent, _)) => intent == target
      case OfApproval(ApprovalExpired(intent)) => intent == target
      case _ => false
    ensures FoldLedger(l, i, event) == l
  {
  }

  lemma ResolutionKeepsBooks(
    s: Store, approval: ApprovalRequest, origin: Origin, event: ApprovalEvent, intents: map<Id, ActionIntent>, i: Id)
    requires SoundResolution(s, approval, event, intents) && BooksOK(s, i)
    ensures BooksOK(WriteApproval(s, approval, origin, event).(intents := intents), i)
  {
    hide OwnerThread, CountOutcome, LedgerOf, Insert;
    var draft := DraftOf(
      ApprovalStream(approval.approvalId), OwnerThread(s, approval.intentId), origin, OfApproval(event));
    LedgerInsert(s.journal, draft, i);
    if i != approval.intentId {
      ForeignResolution(LedgerOf(s.journal, i), i, Envelope(s.journal, draft), approval.intentId);
    }
  }

  lemma ResolutionKeepsGate(
    s: Store, approval: ApprovalRequest, origin: Origin, event: ApprovalEvent, intents: map<Id, ActionIntent>, i: Id)
    requires SoundResolution(s, approval, event, intents)
    requires ApprovalsIndexed(s) && GateOK(s, i)
    ensures GateOK(WriteApproval(s, approval, origin, event).(intents := intents), i)
  {
    hide OwnerThread, Insert;
    assert i == approval.intentId ==> s.approvalOf[i] == approval.approvalId;
  }

  lemma ResolutionAdvances(
    s: Store, approval: ApprovalRequest, origin: Origin, event: ApprovalEvent, intents: map<Id, ActionIntent>)
    requires SoundResolution(s, approval, event, intents)
    ensures ActionsAdvance(s, WriteApproval(s, approval, origin, event).(intents := intents))
  {
    hide OwnerThread, Insert, Log;
  }

  /** A decision or an expiry resolves the approval and, when it refuses, drops the waiting intent. */
  lemma ResolutionKeepsInv(
    s: Store, approval: ApprovalRequest, origin: Origin, event: ApprovalEvent, intents: map<Id, ActionIntent>)
    requires ActionsInv(s) && SoundResolution(s, approval, event, intents)
    ensures var t := WriteApproval(s, approval, origin, event).(intents := intents);
      ActionsInv(t) && ActionsAdvance(s, t)
  {
    hide BooksOK, GateOK, ActionsAdvance, OwnerThread, Insert, LedgerOf, Legal;
    var t := WriteApproval(s, approval, origin, event).(intents := intents);
    var stream := ApprovalStream(approval.approvalId);
    LegalInsert(s.journal, DraftOf(stream, OwnerThread(s, approval.intentId), origin, OfApproval(event)));
    forall i
      ensures BooksOK(t, i) && GateOK(t, i)
    {
      ResolutionKeepsBooks(s, approval, origin, event, intents, i);
      ResolutionKeepsGate(s, approval, origin, event, intents, i);
    }
    ResolutionAdvances(s, approval, origin, event, intents);
  }

  lemma RecordDecisionKeepsInv(
    s: Store, approvalId: Id, decision: ApprovalState, actor: string, evidence: Option<Artifact>, at: Time)
    requires ActionsInv(s)
    requires approvalId in s.approvals && Row(s.approvals, approvalId).status.Pending?
    requires decision.Approved? || decision.Denied?
    ensures var t := RecordDecision(s, approvalId, decision, actor, evidence, at);
      ActionsInv(t) && ActionsAdvance(s, t)
  {
    hide BooksOK, GateOK, WriteApproval, DropIntent, ActionsAdvance, LegalJournal;
    var row := s.approvals[approvalId];
    var decided := row.(status := decision, updatedAt := at, resolvedBy := Some(actor), evidence := evidence);
    var intents := if decision.Denied? then DropIntent(s.intents, row.intentId, DENIED, at) else s.intents;
    ResolutionKeepsInv(s, decided, Origin(actor, at, None), ApprovalDecided(row.intentId, decision), intents);
  }

  /** A write that adds no receipt. */
  lemma PlainIntentKeepsInv(s: Store, intent: ActionIntent, origin: Origin, event: ActionEvent)
    requires ActionsInv(s) && SoundIntent(s, intent, event, [])
    ensures var t := WriteIntent(s, intent, origin, event);
      ActionsInv(t) && ActionsAdvance(s, t)
  {
    hide ActionsInv, ActionsAdvance, SoundIntent, Insert;
    var t := WriteIntent(s, intent, origin, event);
    SoundIntentKeepsInv(s, intent, origin, event, []);
    assert t.(receipts := s.receipts + []) == t;
  }

  lemma MarkKeepsInv(s: Store, intentId: Id, now: Time)
    requires ActionsInv(s)
    requires intentId in s.intents && ActionLapsed(Row(s.intents, intentId), now)
    ensures ActionsInv(MarkReconcile(s, intentId, now)) && ActionsAdvance(s, MarkReconcile(s, intentId, now))
  {
    hide ActionsAdvance, Balanced, LedgerOf, WriteIntent;
    assert BooksOK(s, intentId) && GateOK(s, intentId);
    var row := s.intents[intentId];
    PlainIntentKeepsInv(
      s,
      row.(status := ActionStatus.ReconcileRequired, lease := None,
           lastError := Some("action lease expired before a durable receipt"), updatedAt := now),
      Origin("recovery", now, None), ActionEvent.ReconciliationRequired(row.status, row.token));
  }

  /** Cancelling a waiting intent resolves its approval and drops it, as one pair of writes. */
  lemma CancelIntentKeepsInv(s: Store, intentId: Id, reason: string, origin: Origin)
    requires ActionsInv(s)
    requires intentId in s.intents && Row(s.intents, intentId).status.Pending?
    ensures ActionsInv(CancelIntent(s, intentId, reason, origin))
    ensures ActionsAdvance(s, CancelIntent(s, intentId, reason, origin))
  {
    hide ActionsAdvance, Balanced, LedgerOf, WriteApproval, WriteIntent;
    var t := CancelIntent(s, intentId, reason, origin);
    var intent := s.intents[intentId].(
      status := ActionStatus.Cancelled, lastError := Some(reason), updatedAt := origin.at);
    assert BooksOK(s, intentId) && GateOK(s, intentId);
    if intentId in s.approvalOf && s.approvals[s.approvalOf[intentId]].status.Pending? {
      CancelWithApprovalKeepsInv(s, intentId, reason, origin);
    } else {
      PlainIntentKeepsInv(s, intent, origin, IntentCancelled(reason));
    }
  }

  /** The two drafts a cancelled intent with a pending approval writes. */
  function CancelDrafts(s: Store, intentId: Id, reason: string, origin: Origin): (Draft, Draft)
    requires intentId in s.intents && intentId in s.approvalOf
  {
    (DraftOf(ApprovalStream(s.approvalOf[intentId]), OwnerThread(s, intentId), origin,
             OfApproval(ApprovalCancelled(intentId))),
     DraftOf(ActionStream(intentId), Some(s.intents[intentId].threadId), origin, OfAction(IntentCancelled(reason))))
  }

  ghost predicate CancelsBoth(s: Store, intentId: Id) {
    && intentId in s.intents
    && Row(s.intents, intentId).status.Pending? && Row(s.intents, intentId).intentId == intentId
    && intentId in s.approvalOf && Row(s.approvalOf, intentId) in s.approvals
    && Row(s.approvals, Row(s.approvalOf, intentId)).status.Pending?
    && Row(s.approvals, Row(s.approvalOf, intentId)).approvalId == Row(s.approvalOf, intentId)
    && Row(s.approvals, Row(s.approvalOf, intentId)).intentId == intentId
  }

  lemma CancelBothKeepsBooks(s: Store, intentId: Id, reason: string, origin: Origin, i: Id)
    requires CancelsBoth(s, intentId) && BooksOK(s, i)
    ensures BooksOK(CancelIntent(s, intentId, reason, origin), i)
  {
    hide OwnerThread, Insert, LedgerOf, CountOutcome;
    var (first, second) := CancelDrafts(s, intentId, reason, origin);
    LedgerInsert(s.journal, first, i);
    LedgerInsert(Insert(s.journal, first), second, i);
  }

  lemma CancelBothKeepsGate(s: Store, intentId: Id, reason: string, origin: Origin, i: Id)
    requires ApprovalsIndexed(s) && CancelsBoth(s, intentId) && GateOK(s, i)
    ensures GateOK(CancelIntent(s, intentId, reason, origin), i)
  {
    hide OwnerThread, Insert;
    var a := s.approvalOf[intentId];
    assert Indexed(s, a, Row(s.approvals, a));
    hide ApprovalsIndexed, Indexed, Log;
  }

  lemma CancelBothLegal(s: Store, intentId: Id, reason: string, origin: Origin)
    requires CancelsBoth(s, intentId) && BooksOK(s, intentId)
    ensures var first := CancelDrafts(s, intentId, reason, origin).0;
      Legal(LedgerOf(Insert(s.journal, first), intentId), IntentCancelled(reason))
  {
    LedgerInsert(s.journal, CancelDrafts(s, intentId, reason, origin).0, intentId);
  }

  lemma CancelBothAdvances(s: Store, intentId: Id, reason: string, origin: Origin)
    requires ApprovalsIndexed(s) && CancelsBoth(s, intentId)
    ensures ApprovalsIndexed(CancelIntent(s, intentId, reason, origin))
    ensures ActionsAdvance(s, CancelIntent(s, intentId, reason, origin))
  {
    hide OwnerThread, Insert;
    var t, a := CancelIntent(s, intentId, reason, origin), s.approvalOf[intentId];
    assert Indexed(s, a, Row(s.approvals, a));
    forall x | x in s.approvals
      ensures Indexed(t, x, Row(t.approvals, x))
    {
      assert Indexed(s, x, Row(s.approvals, x));
    }
    hide ApprovalsIndexed, Indexed;
  }

  lemma CancelWithApprovalKeepsInv(s: Store, intentId: Id, reason: string, origin: Origin)
    requires ActionsInv(s) && CancelsBoth(s, intentId)
    ensures ActionsInv(CancelIntent(s, intentId, reason, origin))
    ensures ActionsAdvance(s, CancelIntent(s, intentId, reason, origin))
  {
    hide OwnerThread, BooksOK, GateOK, ApprovalsIndexed, ActionsAdvance, Insert, LedgerOf, Legal;
    var t := CancelIntent(s, intentId, reason, origin);
    var (first, second) := CancelDrafts(s, intentId, reason, origin);
    CancelBothLegal(s, intentId, reason, origin);
    LegalInsert(s.journal, first);
    LegalInsert(Insert(s.journal, first), second);
    forall i
      ensures BooksOK(t, i) && GateOK(t, i)
    {
      CancelBothKeepsBooks(s, intentId, reason, origin, i);
      CancelBothKeepsGate(s, intentId, reason, origin, i);
    }
    CancelBothAdvances(s, intentId, reason, origin);
  }

  lemma {:induction false} CancelPendingKeepsInv(s: Store, runId: Id, rows: seq<Id>, reason: string, origin: Origin)
    requires ActionsInv(s)
    ensures var t := CancelPendingActions(s, runId, rows, reason, origin);
      ActionsInv(t) && ActionsAdvance(s, t)
    decreases |rows|
  {
    hide ActionsInv, ActionsAdvance, CancelIntent;
    if rows == [] {
      ActionsAdvanceReflexive(s);
    } else {
      var rest := CancelPendingActions(s, runId, rows[..|rows| - 1], reason, origin);
      var i := rows[|rows| - 1];
      CancelPendingKeepsInv(s, runId, rows[..|rows| - 1], reason, origin);
      if WaitingFor(rest, i, runId) {
        CancelIntentKeepsInv(rest, i, reason, origin);
        ActionsAdvanceTransitive(s, rest, CancelIntent(rest, i, reason, origin));
      }
    }
  }

  // =========================================================================== no blind retry
  // Whole-history consequences of the action journal: no external effect is blindly retried.

  predicate IsLapse(event: Event, intent: Id) {
    match event.body
    case OfAction(ReconciliationRequired(_, _)) => event.stream == ActionStream(intent)
    case _ => false
  }

  predicate IsExecution(event: Event, intent: Id) {
    match event.body
    case OfAction(ExecutionClaimed(_, _, _)) => event.stream == ActionStream(intent)
    case _ => false
  }

  predicate IsReconciliation(event: Event, intent: Id) {
    match event.body
    case OfAction(ReconciliationClaimed(_, _, _)) => event.stream == ActionStream(intent)
    case _ => false
  }

  predicate IsNotFound(event: Event, intent: Id) {
    match event.body
    case OfAction(ReceiptRecorded(_, outcome, _, _)) => event.stream == ActionStream(intent) && outcome.NotFound?
    case _ => false
  }

  ghost predicate Reconciling(journal: seq<Event>, intent: Id, lapse: nat, n: nat) {
    exists c :: lapse < c < n <= |journal| && IsReconciliation(journal[c], intent)
  }

  /** Somebody claimed the reconciliation after the lapse and then recorded NOT_FOUND. */
  ghost predicate Reconciled(journal: seq<Event>, intent: Id, lapse: nat, n: nat) {
    exists c, d :: lapse < c < d < n <= |journal|
      && IsReconciliation(journal[c], intent) && IsNotFound(journal[d], intent)
  }

  lemma PrefixStep(journal: seq<Event>, intent: Id, n: nat)
    requires n < |journal|
    ensures LedgerOf(journal[..n + 1], intent) == FoldLedger(LedgerOf(journal[..n], intent), intent, journal[n])
  {
    assert journal[..n + 1][..n] == journal[..n];
  }

  /** A state that admits no retry: it waits for a reconciliation, is in the middle of one, or is settled. */
  predicate NoRetryYet(status: Option<ActionStatus>, reconciling: bool) {
    || status == Some(ActionStatus.ReconcileRequired)
    || (status == Some(ActionStatus.Recovering) && reconciling)
    || status == Some(ActionStatus.Succeeded) || status == Some(ActionStatus.Failed)
  }

  /** Only a NOT_FOUND receipt of a reconciliation leads out of it. */
  lemma RetryWaits(l: Ledger, intent: Id, event: Event, reconciling: bool)
    requires NoRetryYet(l.status, reconciling)
    requires forall action ::
      event.stream == ActionStream(intent) && event.body == OfAction(action) ==> Legal(l, action)
    ensures (reconciling && IsNotFound(event, intent))
      || NoRetryYet(FoldLedger(l, intent, event).status, reconciling || IsReconciliation(event, intent))
  {
    if event.stream == ActionStream(intent) && event.body.OfAction? {
      assert Legal(l, event.body.action);
    }
  }

  /** After a lapse either the reconciliation and its NOT_FOUND are there, or no retry is admitted yet. */
  lemma {:induction false} AfterLapse(journal: seq<Event>, intent: Id, lapse: nat, n: nat)
    requires LegalJournal(journal)
    requires lapse < n <= |journal| && IsLapse(journal[lapse], intent)
    ensures Reconciled(journal, intent, lapse, n)
      || NoRetryYet(LedgerOf(journal[..n], intent).status, Reconciling(journal, intent, lapse, n))
    decreases n
  {
    hide LedgerOf;
    PrefixStep(journal, intent, n - 1);
    var event, held := journal[n - 1], Reconciling(journal, intent, lapse, n - 1);
    if n - 1 > lapse {
      AfterLapse(journal, intent, lapse, n - 1);
      if Reconciled(journal, intent, lapse, n - 1) {
        var c, d :| lapse < c < d < n - 1 && IsReconciliation(journal[c], intent) && IsNotFound(journal[d], intent);
      } else {
        RetryWaits(LedgerOf(journal[..n - 1], intent), intent, event, held);
        hide NoRetryYet, FoldLedger, Legal;
        if held {
          var c :| lapse < c < n - 1 && IsReconciliation(journal[c], intent);
        }
      }
    }
  }

  /** No blind retry: once a lease has lapsed without a receipt, a new execution claim exists only
      after a reconciliation claim made since the lapse, and a NOT_FOUND receipt after that. */
  lemma NoBlindRetry(journal: seq<Event>, intent: Id, lapse: nat, retry: nat)
    requires LegalJournal(journal)
    requires lapse < retry < |journal|
    requires IsLapse(journal[lapse], intent) && IsExecution(journal[retry], intent)
    ensures Reconciled(journal, intent, lapse, retry)
  {
    hide LedgerOf;
    AfterLapse(journal, intent, lapse, retry);
    assert Legal(LedgerOf(journal[..retry], intent), journal[retry].body.action);
  }

  ghost predicate NotFoundBetween(journal: seq<Event>, intent: Id, from: nat, n: nat) {
    exists d :: from < d < n <= |journal| && IsNotFound(journal[d], intent)
  }

  lemma {:induction false} AfterExecution(journal: seq<Event>, intent: Id, first: nat, n: nat)
    requires LegalJournal(journal)
    requires first < n <= |journal| && IsExecution(journal[first], intent)
    ensures NotFoundBetween(journal, intent, first, n) || match LedgerOf(journal[..n], intent).status
      case Some(status) => !status.Pending? && !status.Cancelled?
      case None => false
    decreases n
  {
    hide LedgerOf;
    PrefixStep(journal, intent, n - 1);
    var event := journal[n - 1];
    if n - 1 > first {
      AfterExecution(journal, intent, first, n - 1);
      assert NotFoundBetween(journal, intent, first, n - 1) || IsNotFound(event, intent) ==>
        NotFoundBetween(journal, intent, first, n);
      if event.stream == ActionStream(intent) && event.body.OfAction? {
        assert Legal(LedgerOf(journal[..n - 1], intent), event.body.action);
      }
    }
  }

  /** Between two execution claims of one intent somebody established that the first had no effect. */
  lemma EffectsAreSeparated(journal: seq<Event>, intent: Id, first: nat, second: nat)
    requires LegalJournal(journal)
    requires first < second < |journal|
    requires IsExecution(journal[first], intent) && IsExecution(journal[second], intent)
    ensures NotFoundBetween(journal, intent, first, second)
  {
    hide LedgerOf;
    AfterExecution(journal, intent, first, second);
    assert Legal(LedgerOf(journal[..second], intent), journal[second].body.action);
  }

  /** Executions, receipts and tokens of every stored intent add up. */
  lemma ExactAccounting(s: Store, i: Id)
    requires ActionsInv(s) && i in s.intents
    ensures var l := LedgerOf(s.journal, i);
      var waiting := Row(s.intents, i).status.Pending? || Row(s.intents, i).status.Cancelled?;
      && l.executions == CountOutcome(s.receipts, i, ReceiptOutcome.NotFound) + (if waiting then 0 else 1)
      && Row(s.intents, i).token == l.executions + l.reconciliations
      && CountOutcome(s.receipts, i, ReceiptOutcome.Succeeded) == (if Row(s.intents, i).status.Succeeded? then 1 else 0)
      && CountOutcome(s.receipts, i, ReceiptOutcome.Failed) == (if Row(s.intents, i).status.Failed? then 1 else 0)
  {
    hide GateOK, LedgerOf, LegalJournal;
    assert BooksOK(s, i);
  }

  lemma {:induction false} ExecutionsGrow(before: seq<Event>, after: seq<Event>, i: Id)
    requires before <= after
    ensures LedgerOf(before, i).executions <= LedgerOf(after, i).executions
    decreases |after|
  {
    if |before| < |after| {
      assert before <= after[..|after| - 1];
      ExecutionsGrow(before, after[..|after| - 1], i);
    } else {
      assert before == after;
    }
  }

  /** What a granted execution claim says about the intent before and after it. */
  lemma TakeFacts(s: Store, i: Id, worker: string, leaseId: string, seconds: int, now: Time)
    requires ClaimAction(s, i, worker, leaseId, seconds, false, now).Ok?
    requires i in s.intents && Row(s.intents, i).intentId == i
    ensures var t := Committed(s, ClaimAction(s, i, worker, leaseId, seconds, false, now));
      && Row(s.intents, i).status.Pending? && i in t.intents && t.receipts == s.receipts && t.threads == s.threads
      && Row(t.intents, i)
         == Taken(Row(s.intents, i), ActionStatus.Executing, Lease(worker, leaseId, now + seconds), now)
      && (Row(t.intents, i).requiresApproval ==> IsApproved(t, i))
  {
    hide Insert;
  }
}
