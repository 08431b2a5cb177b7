/** The worker host: several repository calls per claim, interleaved with everything else. */
module WorkerHost {
  import opened Prelude
  import opened Vocabulary
  import opened Journal
  import opened Store
  import opened Scheduler
  import opened Lifecycle
  import opened Actions
  import opened Resources
  import opened Integrity
  import opened Agreement
  import opened Books
  import opened Protocol

  /** How far a host has come with one attempt of one Run. */
  datatype Phase =
    | Idle
    | Transforming
    | Transformed(output: Artifact)
    | Verifying(output: Artifact)
    | Verified(output: Artifact, report: Artifact, verified: Artifact)
    | Over

  /** The store and the hosts' sessions, one for each Run and attempt. */
  datatype World = World(store: Store, sessions: map<(Id, nat), Phase>)

  function SessionOf(claim: WorkerClaim): (Id, nat) {
    (claim.runId, claim.attempt)
  }

  function PhaseAt(w: World, session: (Id, nat)): Phase {
    if session in w.sessions then w.sessions[session] else Idle
  }

  function TransformStep(session: (Id, nat)): Id {
    StepOf(session.0, session.1, 1, StepKind.Transform)
  }

  function VerifierStep(session: (Id, nat)): Id {
    StepOf(session.0, session.1, 2, StepKind.Verifier)
  }

  /** The calls of `_execute_active`, and everything that goes on elsewhere meanwhile. */
  datatype HostStep =
    | BeginTransform(claim: WorkerClaim, providerKey: string, version: string, inputs: seq<Artifact>)
    | EndTransform(claim: WorkerClaim, output: Artifact)
    | BeginVerifier(claim: WorkerClaim, providerKey: string, version: string)
    | PassVerdict(claim: WorkerClaim, report: Artifact, verified: Artifact)
    | FailVerdict(claim: WorkerClaim, report: Artifact)
    | FailStep(claim: WorkerClaim, code: string)
    | Complete(claim: WorkerClaim, executorKey: string, version: string)
    | Deliver(claim: WorkerClaim, executorKey: string, summary: Artifact)
    | Settle(
        claim: WorkerClaim, executorKey: string, version: string, code: string, error: string, retryable: bool,
        delay: int)
    | LoseLease(claim: WorkerClaim)
    | Elsewhere(step: Step)

  /** The claim a host acts under; any claim for what goes on elsewhere. */
  ghost function ClaimOf(step: HostStep): WorkerClaim {
    if step.Elsewhere? then var claim: WorkerClaim :| true; claim else step.claim
  }

  /** Where in `_execute_active` each call is made. */
  predicate InOrder(phase: Phase, step: HostStep) {
    match step
    case BeginTransform(_, _, _, _) => phase.Idle?
    case EndTransform(_, _) => phase.Transforming?
    case BeginVerifier(_, _, _) => phase.Transformed?
    case PassVerdict(_, _, _) => phase.Verifying?
    case FailVerdict(_, _) => phase.Verifying?
    case FailStep(_, _) => phase.Transforming? || phase.Verifying?
    case Complete(_, _, _) => phase.Transformed?
    case Deliver(_, _, _) => phase.Verified?
    case _ => true
  }

  /** What the transform put out, and what the check reported and passed; anything before that. */
  ghost function OutputOf(phase: Phase): Artifact {
    if phase.Transformed? || phase.Verifying? || phase.Verified? then phase.output else var a: Artifact :| true; a
  }

  ghost function VerdictOf(phase: Phase): (Artifact, Artifact) {
    if phase.Verified? then (phase.report, phase.verified) else var a: Artifact :| true; (a, a)
  }

  /** The repository call a host step makes. */
  ghost function CallOf(phase: Phase, step: HostStep): Step {
    match step
    case BeginTransform(claim, providerKey, version, inputs) =>
      Work(BeginStep(claim, TransformStep(SessionOf(claim)), 1, StepKind.Transform, providerKey, version, inputs))
    case EndTransform(claim, output) =>
      Work(FinishStep(claim, TransformStep(SessionOf(claim)), [output], None, None))
    case BeginVerifier(claim, providerKey, version) =>
      var inputs := [OutputOf(phase)];
      Work(BeginStep(claim, VerifierStep(SessionOf(claim)), 2, StepKind.Verifier, providerKey, version, inputs))
    case PassVerdict(claim, report, verified) =>
      Work(FinishStep(claim, VerifierStep(SessionOf(claim)), [report, verified], Some(report), None))
    case FailVerdict(claim, report) =>
      Work(FinishStep(claim, VerifierStep(SessionOf(claim)), [report], Some(report), Some("verification_failed")))
    case FailStep(claim, code) =>
      var step := if phase.Transforming? then TransformStep(SessionOf(claim)) else VerifierStep(SessionOf(claim));
      Work(FinishStep(claim, step, [], None, Some(code)))
    case Complete(claim, executorKey, version) =>
      Work(Finish(claim, executorKey, version, Outcome.Succeeded(OutputOf(phase))))
    case Deliver(claim, executorKey, summary) =>
      var (report, verified) := VerdictOf(phase);
      Work(Finalize(claim, executorKey, verified, report, summary, [OutputOf(phase)]))
    case Settle(claim, executorKey, version, code, error, retryable, delay) =>
      Work(Finish(claim, executorKey, version, Failure(code, error, retryable, delay)))
    case LoseLease(_) => var call: Step :| true; call
    case Elsewhere(call) => call
  }

  ghost function NextPhase(phase: Phase, step: HostStep): Phase {
    match step
    case BeginTransform(_, _, _, _) => Transforming
    case EndTransform(_, output) => Transformed(output)
    case BeginVerifier(_, _, _) => Phase.Verifying(OutputOf(phase))
    case PassVerdict(_, report, verified) => Verified(OutputOf(phase), report, verified)
    case _ => Over
  }

  /** A call that raises leaves store and session as they were; what the host does next is its own
      affair: fail the step, settle the attempt, or walk away. */
  ghost function HostAfter(w: World, now: Time, step: HostStep): World {
    match step
    case Elsewhere(call) => AfterCall(w, now, call, w.sessions)
    case _ =>
      var session, phase := SessionOf(ClaimOf(step)), PhaseAt(w, SessionOf(ClaimOf(step)));
      if !InOrder(phase, step) then w
      else if step.LoseLease? then World(w.store, w.sessions[session := Over])
      else AfterCall(w, now, CallOf(phase, step), w.sessions[session := NextPhase(phase, step)])
  }

  function AfterCall(w: World, now: Time, call: Step, sessions: map<(Id, nat), Phase>): World {
    var result := Apply(Tick(w.store, now), call);
    if result.Err? then w else World(Committed(w.store, result), sessions)
  }

  /** Step rows and deliveries are written by hosts only. */
  predicate HostOnly(step: Step) {
    step.Work? && (step.work.BeginStep? || step.work.FinishStep? || step.work.Finalize?)
  }

  /** Hosts act under claims as they were handed out; the rest is the closed protocol. */
  ghost predicate HostEnabled(w: World, now: Time, step: HostStep) {
    && w.store.clock <= now
    && match step
       case Elsewhere(call) => !HostOnly(call) && Enabled(w.store, now, call) && Closed(w.store, now, call)
       case _ =>
         ClaimOf(step).attempt == ClaimOf(step).token && InOrder(PhaseAt(w, SessionOf(ClaimOf(step))), step)
  }

  type HostTrace = seq<(Time, HostStep)>

  ghost function AfterHostCall(w: World, call: (Time, HostStep)): World {
    HostAfter(w, call.0, call.1)
  }

  ghost predicate HostCallEnabled(w: World, call: (Time, HostStep)) {
    HostEnabled(w, call.0, call.1)
  }

  ghost function HostExecute(w: World, trace: HostTrace): World {
    Fold(AfterHostCall, w, trace)
  }

  ghost predicate HostPossible(w: World, trace: HostTrace) {
    AllAllowed(AfterHostCall, HostCallEnabled, w, trace)
  }

  function EmptyWorld(start: Time): World {
    World(EmptyStore(start), map[])
  }

  // =========================================================================== every run of hosts
  // Steps and deliveries appear only in the order the host's protocol prescribes.

  ghost predicate StepSucceeded(s: Store, step: Id) {
    step in s.steps && Row(s.steps, step).state.Succeeded?
  }

  ghost predicate StepRunning(s: Store, step: Id) {
    step in s.steps && Row(s.steps, step).state.Running?
  }

  /** The rows of one session's two steps fit its phase. */
  ghost predicate PhaseFits(s: Store, session: (Id, nat), phase: Phase) {
    var transform, verifier := TransformStep(session), VerifierStep(session);
    match phase
    case Idle => transform !in s.steps && verifier !in s.steps
    case Transforming => StepRunning(s, transform) && verifier !in s.steps
    case Transformed(output) =>
      StepSucceeded(s, transform) && Row(s.steps, transform).outputs == [output] && verifier !in s.steps
    case Verifying(output) =>
      && StepSucceeded(s, transform) && Row(s.steps, transform).outputs == [output]
      && StepRunning(s, verifier) && Row(s.steps, verifier).inputs == [output]
    case Verified(output, report, verified) =>
      && StepSucceeded(s, transform) && Row(s.steps, transform).outputs == [output]
      && StepSucceeded(s, verifier) && Row(s.steps, verifier).inputs == [output]
      && verified in Row(s.steps, verifier).outputs
    case Over => verifier in s.steps ==> StepSucceeded(s, transform)
  }

  /** Both steps of one attempt succeeded, the second checked what the first produced, and the
      artifact came out of the check. */
  ghost predicate Checked(s: Store, session: (Id, nat), primary: Artifact) {
    var transform, verifier := TransformStep(session), VerifierStep(session);
    && StepSucceeded(s, transform) && StepSucceeded(s, verifier)
    && Row(s.steps, verifier).inputs == Row(s.steps, transform).outputs
    && primary in Row(s.steps, verifier).outputs
  }

  /** A delivery rests on the two steps of its Run's last attempt. */
  ghost predicate DeliveryChecked(s: Store, row: DeliveryRecord) {
    && row.runId in s.jobs && EndedJob(JobAt(s, row.runId))
    && Checked(s, (row.runId, JobAt(s, row.runId).attempts), row.primary)
  }

  ghost predicate WorldInv(w: World) {
    && ClosedInv(w.store)
    && (forall session :: PhaseFits(w.store, session, PhaseAt(w, session)))
    && (forall row :: row in w.store.deliveries ==> DeliveryChecked(w.store, row))
  }

  // ---------------------------------------------------------------- calls that write no step row

  /** Step rows as they were, deliveries at most presented. */
  ghost predicate Aside(s: Store, u: Store) {
    u.steps == s.steps && SameRows(s.deliveries, u.deliveries)
  }

  lemma PlainAside(s: Store, u: Store)
    requires Plain(s, u)
    ensures Aside(s, u)
  {
  }

  lemma DeskAside(s: Store, step: DeskStep)
    requires ApplyDesk(s, step).Ok?
    ensures Aside(s, Committed(s, ApplyDesk(s, step)))
  {
    hide SubmitTask, BindRunSnapshots, Accept, ResolveRoute, NoDelivery, Plain;
    match step
    case Submit(sub) =>
      SubmitNoDelivery(s, sub, s.clock);
      NoDeliveryAside(s, ApplyDesk(s, step).value);
    case Bind(thread, runId, task, agent, context, expectedRevision, actor) =>
      BindPlain(s, thread, runId, task, agent, context, expectedRevision, Origin(actor, s.clock, None));
      PlainNoDelivery(s, ApplyDesk(s, step).value);
      NoDeliveryAside(s, ApplyDesk(s, step).value);
    case AcceptMessage(message, route, project, agent, seen, ids, rows) =>
      AcceptNoDelivery(s, message, route, project, agent, seen, ids, rows, s.clock);
      NoDeliveryAside(s, ApplyDesk(s, step).value);
    case Resolve(stored, platform, actor, decision, target, kind, reason, agent, seen, ids, rows) =>
      ResolveNoDelivery(s, stored, platform, actor, decision, target, kind, reason, agent, seen, ids, rows, s.clock);
      NoDeliveryAside(s, ApplyDesk(s, step).value);
    case Present(index, actor) =>
  }

  lemma NoDeliveryAside(s: Store, u: Store)
    requires NoDelivery(s, u)
    ensures Aside(s, u)
  {
  }

  lemma ElsewhereAside(s: Store, step: Step)
    requires ClosedInv(s) && Apply(s, step).Ok? && Closed(s, s.clock, step) && !HostOnly(step)
    requires StepAnswered(s, step)
    ensures Aside(s, Committed(s, Apply(s, step)))
  {
    hide ClosedInv, ApplyWork, ApplyDesk, ApplyGate, ApplyHold, ApplyRaw, Picks, Sweep, Confined, ClaimNextRun,
      Counts, JobsReplayed, Matches, OneLeasePerThread, OpenInv, Shaped, AgreeInv, GoodRead;
    ClosedAgreeing(s);
    match step
    case Work(work) =>
      WorkAgrees(s, work);
      assert Aside(s, Apply(s, step).value);
    case Desk(desk) => DeskAside(s, desk);
    case Gate(gate) =>
      GateHarmless(s, gate);
      assert Plain(s, Apply(s, step).value);
      PlainAside(s, Apply(s, step).value);
    case Hold(hold) =>
      HoldConfined(s, hold);
      ConfinedPlain(s, Apply(s, step).value, Area.Resources);
      PlainAside(s, Apply(s, step).value);
    case Raw(_) => assert false;
  }

  lemma ClosedAgreeing(s: Store)
    requires ClosedInv(s)
    ensures OpenInv(s) && AgreeInv(s)
  {
    hide AgreeInv, DeliveryInv, InboxInv, OpenInv;
  }

  // ---------------------------------------------------------------- calls that write step rows

  lemma BeginWrites(
    s: Store, claim: WorkerClaim, stepId: Id, ordinal: nat, kind: StepKind, providerKey: string, version: string,
    inputs: seq<Artifact>, now: Time)
    requires BeginClaimedStep(s, claim, stepId, ordinal, kind, providerKey, version, inputs, now).Ok?
    requires stepId !in s.steps
    ensures var u := Committed(s, BeginClaimedStep(s, claim, stepId, ordinal, kind, providerKey, version, inputs, now));
      && u.steps == s.steps[stepId := Row(u.steps, stepId)] && Row(u.steps, stepId).state.Running?
      && Row(u.steps, stepId).inputs == inputs && u.deliveries == s.deliveries && u.jobs == s.jobs
  {
    hide Log, Live, SlotTaken, NonBlank;
    var origin := Origin(claim.worker, now, None);
    var a := Log(s, StepStream(stepId), Some(claim.threadId), origin, StepCreated);
    LogKeepsTables(s, StepStream(stepId), Some(claim.threadId), origin, StepCreated);
    LogKeepsTables(a, StepStream(stepId), Some(claim.threadId), origin, StepStarted);
  }

  lemma FinishWrites(
    s: Store, claim: WorkerClaim, stepId: Id, outputs: seq<Artifact>, verifierResult: Option<Artifact>,
    errorCode: Option<string>, now: Time)
    requires FinishClaimedStep(s, claim, stepId, outputs, verifierResult, errorCode, now).Ok?
    ensures var u := Committed(s, FinishClaimedStep(s, claim, stepId, outputs, verifierResult, errorCode, now));
      && stepId in s.steps && Row(s.steps, stepId).state.Running?
      && u.steps == s.steps[stepId := Row(u.steps, stepId)] && Row(u.steps, stepId).outputs == outputs
      && Row(u.steps, stepId).inputs == Row(s.steps, stepId).inputs
      && (Row(u.steps, stepId).state.Succeeded? <==> errorCode.None?)
      && u.deliveries == s.deliveries && u.jobs == s.jobs
  {
    hide Log, Live;
    var origin := Origin(claim.worker, now, None);
    LogKeepsTables(s, StepStream(stepId), Some(claim.threadId), origin, StepOutputs);
    var a := if outputs == [] then s else Log(s, StepStream(stepId), Some(claim.threadId), origin, StepOutputs);
    LogKeepsTables(a, StepStream(stepId), Some(claim.threadId), origin, StepEnded(errorCode.None?));
  }

  /** A world in which one session's step row was written. */
  ghost predicate Stepped(w: World, v: World, session: (Id, nat), stepId: Id) {
    && (stepId == TransformStep(session) || stepId == VerifierStep(session))
    && stepId in v.store.steps && v.store.steps == w.store.steps[stepId := Row(v.store.steps, stepId)]
    && (stepId !in w.store.steps || Row(w.store.steps, stepId).state.Running?)
    && v.store.deliveries == w.store.deliveries && v.store.jobs == w.store.jobs
    && session in v.sessions && v.sessions == w.sessions[session := v.sessions[session]]
  }

  lemma SteppedKeeps(w: World, v: World, session: (Id, nat), stepId: Id)
    requires WorldInv(w) && ClosedInv(v.store) && Stepped(w, v, session, stepId)
    requires PhaseFits(v.store, session, PhaseAt(v, session))
    ensures WorldInv(v)
  {
    hide ClosedInv;
    forall other
      ensures PhaseFits(v.store, other, PhaseAt(v, other))
    {
      if other != session {
        assert PhaseFits(w.store, other, PhaseAt(w, other));
        assert PhaseFits(v.store, other, PhaseAt(w, other));
      }
    }
    forall i | 0 <= i < |v.store.deliveries|
      ensures DeliveryChecked(v.store, v.store.deliveries[i])
    {
      assert DeliveryChecked(w.store, w.store.deliveries[i]);
      assert DeliveryChecked(v.store, w.store.deliveries[i]);
    }
  }

  // ---------------------------------------------------------------- calls that write none

  /** A world in which no step row was written, and at most one session is over. */
  ghost predicate StoodBy(w: World, v: World, session: (Id, nat)) {
    && Aside(w.store, v.store) && RowsAdvance(w.store, v.store)
    && (v.sessions == w.sessions || v.sessions == w.sessions[session := Over])
  }

  lemma StoodByKeeps(w: World, v: World, session: (Id, nat))
    requires WorldInv(w) && ClosedInv(v.store) && StoodBy(w, v, session)
    ensures WorldInv(v)
  {
    hide ClosedInv;
    forall other
      ensures PhaseFits(v.store, other, PhaseAt(v, other))
    {
      assert PhaseFits(w.store, other, PhaseAt(w, other));
      assert PhaseFits(v.store, other, PhaseAt(w, other)) && PhaseFits(v.store, other, Over);
    }
    forall i | 0 <= i < |v.store.deliveries|
      ensures DeliveryChecked(v.store, v.store.deliveries[i])
    {
      assert DeliveryChecked(w.store, w.store.deliveries[i]);
      assert DeliveryChecked(v.store, v.store.deliveries[i]);
    }
  }

  // ---------------------------------------------------------------- delivering

  lemma FinalizeRows(
    s: Store, claim: WorkerClaim, executorKey: string, primary: Artifact, report: Artifact, summary: Artifact,
    supporting: seq<Artifact>, now: Time)
    requires FinalizeDelivery(s, claim, executorKey, primary, report, summary, supporting, now).Ok?
    ensures var u := Committed(s, FinalizeDelivery(s, claim, executorKey, primary, report, summary, supporting, now));
      && u.steps == s.steps && Live(s, claim, now) && claim.runId in u.jobs
      && JobAt(u, claim.runId).attempts == JobAt(s, claim.runId).attempts && EndedJob(JobAt(u, claim.runId))
      && u.deliveries == s.deliveries + [NextDelivery(s, claim, primary, report, summary, supporting, now)]
  {
    hide CloseThread, Log, DeliveryClashes;
    var t := claim.threadId;
    var row := NextDelivery(s, claim, primary, report, summary, supporting, now);
    var origin, stream := Origin(claim.worker, now, None), DeliveryStream(row.deliveryId);
    var prepared := Log(s, stream, Some(t), origin, DeliveryPrepared(row.version));
    LogKeepsTables(s, stream, Some(t), origin, DeliveryPrepared(row.version));
    CloseThreadOnly(prepared, claim, row.deliveryId, primary, origin);
    var closed := CloseThread(prepared, claim, row.deliveryId, primary, origin).value;
    var settled := SettleJob(closed, claim.runId, Done, None, origin);
    hide SettleJob;
    LogKeepsTables(settled, stream, Some(t), Origin("outbox", now, None), DeliveryNotified(OutboxOf(row.deliveryId)));
  }

  lemma SettleRow(s: Store, r: Id, origin: Origin)
    requires r in s.jobs
    ensures var u := SettleJob(s, r, Done, None, origin);
      && r in u.jobs && JobAt(u, r).attempts == JobAt(s, r).attempts && EndedJob(JobAt(u, r))
      && u.steps == s.steps && u.deliveries == s.deliveries
  {
    hide Insert;
  }

  /** A session that has passed its verdict delivers what it verified, under its own attempt. */
  lemma DeliverKeeps(
    w: World, v: World, claim: WorkerClaim, executorKey: string, output: Artifact, report: Artifact,
    verified: Artifact, summary: Artifact, now: Time)
    requires WorldInv(w) && ClosedInv(v.store) && RowsAdvance(w.store, v.store) && claim.attempt == claim.token
    requires PhaseAt(w, SessionOf(claim)) == Verified(output, report, verified)
    requires FinalizeDelivery(Tick(w.store, now), claim, executorKey, verified, report, summary, [output], now)
          == Ok(v.store)
    requires v.sessions == w.sessions[SessionOf(claim) := Over]
    ensures WorldInv(v)
  {
    hide ClosedInv, FinalizeDelivery, Prior;
    var session, phase := SessionOf(claim), PhaseAt(w, SessionOf(claim));
    var s := Tick(w.store, now);
    FinalizeRows(s, claim, executorKey, verified, report, summary, [output], now);
    forall other
      ensures PhaseFits(v.store, other, PhaseAt(v, other))
    {
      assert PhaseFits(w.store, other, PhaseAt(w, other));
    }
    var n := |w.store.deliveries|;
    forall i | 0 <= i < |v.store.deliveries|
      ensures DeliveryChecked(v.store, v.store.deliveries[i])
    {
      if i < n {
        assert DeliveryChecked(w.store, w.store.deliveries[i]);
        assert DeliveryChecked(v.store, v.store.deliveries[i]);
      } else {
        assert PhaseFits(w.store, session, phase);
        LiveAttempt(w.store, claim, now);
        assert DeliveryChecked(v.store, v.store.deliveries[i]);
      }
    }
  }

  lemma LiveAttempt(s: Store, claim: WorkerClaim, now: Time)
    requires ClosedInv(s) && Live(Tick(s, now), claim, now) && claim.attempt == claim.token
    ensures claim.runId in s.jobs && JobAt(s, claim.runId).attempts == claim.attempt
  {
    hide AgreeInv, DeliveryInv, InboxInv, Faithful, ActionsInv, ResourcesInv, ClaimsNumbered, JobsReplayed,
      OneLeasePerThread, TokensCountClaims;
    assert RowOK(claim.runId, s.jobs[claim.runId]);
  }

  // ---------------------------------------------------------------- every step of every run

  lemma CallSound(s: Store, now: Time, step: Step)
    requires ClosedInv(s) && Enabled(s, now, step) && Closed(s, now, step)
    requires Apply(Tick(s, now), step).Ok?
    ensures ClosedInv(Committed(Tick(s, now), Apply(Tick(s, now), step)))
      && RowsAdvance(s, Committed(Tick(s, now), Apply(Tick(s, now), step)))
  {
    hide Apply, Enabled, Closed, Sound, OpenInv, AgreeInv, ActionsAdvance, DeliveryInv, InboxInv, LeasesAdvance,
      RowsAdvance;
    AfterClosed(s, now, step);
    AfterSound(s, now, step);
    assert OpenInv(s) && AgreeInv(s);
    SoundKeepsOpen(s, After(s, now, step));
    assert RowsAdvance(s, After(s, now, step));
  }

  lemma AdvanceRows(s: Store, u: Store)
    requires Advance(s, u)
    ensures RowsAdvance(s, u)
  {
  }

  lemma FitsAt(w: World, session: (Id, nat))
    requires WorldInv(w)
    ensures PhaseFits(w.store, session, PhaseAt(w, session))
  {
    hide ClosedInv, DeliveryChecked, Eligible, PhaseFits, Sweep;
  }

  /** The four calls that write a step row. */
  predicate WritesStep(step: HostStep) {
    step.BeginTransform? || step.EndTransform? || step.BeginVerifier? || step.PassVerdict? || step.FailVerdict?
    || step.FailStep?
  }

  ghost function StepIdOf(phase: Phase, step: HostStep): Id {
    var session := SessionOf(ClaimOf(step));
    if step.BeginTransform? || step.EndTransform? || (step.FailStep? && phase.Transforming?) then TransformStep(session)
    else VerifierStep(session)
  }

  /** What a step-writing call leaves behind. */
  ghost predicate Wrote(w: World, step: HostStep, u: Store) {
    var session, phase := SessionOf(ClaimOf(step)), PhaseAt(w, SessionOf(ClaimOf(step)));
    var v := World(u, w.sessions[session := NextPhase(phase, step)]);
    Stepped(w, v, session, StepIdOf(phase, step)) && PhaseFits(u, session, NextPhase(phase, step))
  }

  lemma BeginSteps(w: World, now: Time, step: HostStep, u: Store)
    requires (step.BeginTransform? || step.BeginVerifier?) && InOrder(PhaseAt(w, SessionOf(ClaimOf(step))), step)
    requires PhaseFits(w.store, SessionOf(ClaimOf(step)), PhaseAt(w, SessionOf(ClaimOf(step))))
    requires Apply(Tick(w.store, now), CallOf(PhaseAt(w, SessionOf(ClaimOf(step))), step)) == Ok(u)
    ensures Wrote(w, step, u)
  {
    hide ApplyDesk, ApplyGate, ApplyHold, ApplyRaw, BeginClaimedStep, ClaimNextRun, Eligible, FinalizeDelivery,
      FinishClaimedExecution, FinishClaimedStep, HeartbeatRun, RecordClaimedCheckpoint, StartClaimedRun, Sweep;
    var s, phase := Tick(w.store, now), PhaseAt(w, SessionOf(step.claim));
    var id := StepIdOf(phase, step);
    if step.BeginTransform? {
      BeginWrites(s, step.claim, id, 1, StepKind.Transform, step.providerKey, step.version, step.inputs, now);
    } else {
      BeginWrites(s, step.claim, id, 2, StepKind.Verifier, step.providerKey, step.version, [phase.output], now);
    }
  }

  lemma FinishSteps(w: World, now: Time, step: HostStep, u: Store)
    requires step.EndTransform? || step.PassVerdict? || step.FailVerdict? || step.FailStep?
    requires InOrder(PhaseAt(w, SessionOf(ClaimOf(step))), step)
    requires PhaseFits(w.store, SessionOf(ClaimOf(step)), PhaseAt(w, SessionOf(ClaimOf(step))))
    requires Apply(Tick(w.store, now), CallOf(PhaseAt(w, SessionOf(ClaimOf(step))), step)) == Ok(u)
    ensures Wrote(w, step, u)
  {
    hide ApplyDesk, ApplyGate, ApplyHold, ApplyRaw, FinishClaimedStep, BeginClaimedStep, ClaimNextRun, Eligible, Emit,
      FinalizeDelivery, FinishClaimedExecution, StartClaimedRun, Sweep, WriteJob;
    var s, phase := Tick(w.store, now), PhaseAt(w, SessionOf(step.claim));
    var id := StepIdOf(phase, step);
    assert ApplyWork(s, CallOf(phase, step).work) == Ok(u);
    hide Apply, Tick;
    match step
    case EndTransform(claim, output) => FinishWrites(s, claim, id, [output], None, None, now);
    case PassVerdict(claim, report, verified) =>
      FinishWrites(s, claim, id, [report, verified], Some(report), None, now);
    case FailVerdict(claim, report) =>
      FinishWrites(s, claim, id, [report], Some(report), Some("verification_failed"), now);
    case FailStep(claim, code) => FinishWrites(s, claim, id, [], None, Some(code), now);
  }

  lemma WriteKeeps(w: World, now: Time, step: HostStep)
    requires WorldInv(w) && HostEnabled(w, now, step) && !step.Elsewhere? && WritesStep(step)
    ensures WorldInv(HostAfter(w, now, step))
  {
    hide ClosedInv, PhaseFits, Stepped, ApplyWork, NextPhase, StepIdOf, InOrder, RowsAdvance, ApplyDesk, ApplyGate,
      ApplyHold, ApplyRaw, Eligible, Sweep;
    var session, phase := SessionOf(step.claim), PhaseAt(w, SessionOf(step.claim));
    var call := CallOf(phase, step);
    if Apply(Tick(w.store, now), call).Ok? {
      var u := Apply(Tick(w.store, now), call).value;
      assert ClosedInv(w.store);
      CallSound(w.store, now, call);
      if step.BeginTransform? || step.BeginVerifier? {
        BeginSteps(w, now, step, u);
      } else {
        FinishSteps(w, now, step, u);
      }
      SteppedKeeps(w, HostAfter(w, now, step), session, StepIdOf(phase, step));
    }
  }

  lemma StandKeeps(w: World, now: Time, step: HostStep)
    requires WorldInv(w) && HostEnabled(w, now, step)
    requires step.Elsewhere? || step.Complete? || step.Settle? || step.LoseLease?
    ensures WorldInv(HostAfter(w, now, step))
  {
    hide ClosedInv, PhaseFits, Apply, Sweep, WriteJob;
    var v := HostAfter(w, now, step);
    assert ClosedInv(w.store);
    if step.LoseLease? {
      assert Aside(w.store, w.store) && RowsAdvance(w.store, w.store);
      StoodByKeeps(w, v, SessionOf(step.claim));
    } else {
      var phase := if step.Elsewhere? then Idle else PhaseAt(w, SessionOf(step.claim));
      var call := CallOf(phase, step);
      if Apply(Tick(w.store, now), call).Ok? {
        CallSound(w.store, now, call);
        assert Aside(w.store, Committed(Tick(w.store, now), Apply(Tick(w.store, now), call))) by {
          TickClosed(w.store, now);
          assert Closed(Tick(w.store, now), now, call);
          ElsewhereAside(Tick(w.store, now), call);
        }
        StoodByKeeps(w, v, if step.Elsewhere? then (Lit(""), 0) else SessionOf(step.claim));
      }
    }
  }

  lemma DeliverStepKeeps(w: World, now: Time, step: HostStep)
    requires WorldInv(w) && HostEnabled(w, now, step) && step.Deliver?
    ensures WorldInv(HostAfter(w, now, step))
  {
    hide ClosedInv, PhaseFits, RowsAdvance, FinalizeDelivery, ApplyDesk, ApplyGate, ApplyHold, ApplyRaw,
      BeginClaimedStep, Emit, FinishClaimedExecution, FinishClaimedStep, WriteJob;
    var phase := PhaseAt(w, SessionOf(step.claim));
    var call := CallOf(phase, step);
    if Apply(Tick(w.store, now), call).Ok? {
      assert ClosedInv(w.store);
      CallSound(w.store, now, call);
      DeliverKeeps(
        w, HostAfter(w, now, step), step.claim, step.executorKey, phase.output, phase.report, phase.verified,
        step.summary, now);
    }
  }

  lemma {:induction false} EveryHostRun(w: World, trace: HostTrace)
    requires WorldInv(w) && HostPossible(w, trace)
    ensures WorldInv(HostExecute(w, trace))
    decreases |trace|
  {
    hide WorldInv, HostAfter, HostEnabled;
    if trace != [] {
      var n := |trace| - 1;
      EveryHostRun(w, trace[..n]);
      if trace[n].1.Deliver? {
        DeliverStepKeeps(HostExecute(w, trace[..n]), trace[n].0, trace[n].1);
      } else if !trace[n].1.Elsewhere? && WritesStep(trace[n].1) {
        WriteKeeps(HostExecute(w, trace[..n]), trace[n].0, trace[n].1);
      } else {
        StandKeeps(HostExecute(w, trace[..n]), trace[n].0, trace[n].1);
      }
    }
  }

  lemma EmptyWorldFits(start: Time)
    ensures WorldInv(EmptyWorld(start))
  {
    EmptyIsClosed(start);
    hide ClosedInv;
  }

  // ---------------------------------------------------------------- what it means

  /** Worlds that hosts and everybody else can lead to, in any order. */
  ghost predicate HostReached(w: World) {
    exists start: Time, trace: HostTrace ::
      HostPossible(EmptyWorld(start), trace) && w == HostExecute(EmptyWorld(start), trace)
  }

  lemma ReachedFits(w: World)
    requires HostReached(w)
    ensures WorldInv(w)
  {
    hide WorldInv, HostPossible, HostExecute;
    var start: Time, trace: HostTrace :|
      HostPossible(EmptyWorld(start), trace) && w == HostExecute(EmptyWorld(start), trace);
    EmptyWorldFits(start);
    EveryHostRun(EmptyWorld(start), trace);
  }

  /** A verifier step exists only where the same attempt's transform step succeeded. */
  lemma VerifierNeedsTransform(w: World, session: (Id, nat))
    requires HostReached(w)
    ensures VerifierStep(session) in w.store.steps ==> StepSucceeded(w.store, TransformStep(session))
  {
    hide HostReached, WorldInv, Eligible, Sweep;
    ReachedFits(w);
    FitsAt(w, session);
  }

  ghost predicate AllChecked(s: Store) {
    forall row :: row in s.deliveries ==> DeliveryChecked(s, row)
  }

  /** A delivery exists only where both steps of its Run's last attempt succeeded and the check put
      out its primary artifact. */
  lemma DeliveryNeedsBothSteps(w: World)
    requires HostReached(w)
    ensures AllChecked(w.store)
  {
    hide HostReached, ClosedInv, PhaseFits;
    ReachedFits(w);
  }

  /** No delivery and no notice of the Run comes from the attempt: what there is came from another one,
      the last of the ended job. */
  ghost predicate Silent(s: Store, session: (Id, nat)) {
    && (forall i :: 0 <= i < |s.deliveries| && s.deliveries[i].runId == session.0 ==> MadeByOther(s, session))
    && (forall i :: 0 <= i < |s.outbox| && s.outbox[i].runId == session.0 ==> MadeByOther(s, session))
  }

  ghost predicate MadeByOther(s: Store, session: (Id, nat)) {
    session.0 in s.jobs && EndedJob(JobAt(s, session.0)) && JobAt(s, session.0).attempts != session.1
  }

  /** A failed verdict, or a verdict never reached, leaves neither a delivery nor a notice of that attempt. */
  lemma FailedVerdictDeliversNothing(w: World, session: (Id, nat))
    requires HostReached(w) && !StepSucceeded(w.store, VerifierStep(session))
    ensures Silent(w.store, session)
  {
    hide HostReached, ClosedInv, PhaseFits, PhaseAt;
    ReachedFits(w);
    ClosedNotices(w.store);
    forall i | 0 <= i < |w.store.deliveries| && w.store.deliveries[i].runId == session.0
      ensures MadeByOther(w.store, session)
    {
      assert DeliveryChecked(w.store, w.store.deliveries[i]);
    }
    forall i | 0 <= i < |w.store.outbox| && w.store.outbox[i].runId == session.0
      ensures MadeByOther(w.store, session)
    {
      assert Announces(w.store.outbox[i], w.store.deliveries[i]);
    }
  }

  lemma ClosedNotices(s: Store)
    requires ClosedInv(s)
    ensures NoticesMatch(s)
  {
    hide AgreeInv, Backed, InboxInv, OpenInv;
  }

  /** The i-th notice is of the i-th delivery. */
  ghost predicate NoticesMatch(s: Store) {
    |s.outbox| == |s.deliveries|
    && forall i :: 0 <= i < |s.deliveries| ==> Announces(s.outbox[i], s.deliveries[i])
  }
}
