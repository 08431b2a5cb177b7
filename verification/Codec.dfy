/** The stored form of a Thread: `as_dict` written as JSON, and `_projection_from_json` back. */
module Codec {
  import opened Prelude
  import opened Vocabulary
  import opened Journal
  import opened Reducer

  /** The member names of the stored objects. */
  datatype Key =
    | ThreadId | ProjectId | Title | Desired | Actual | Attention | Revision | CurrentBranch | ActiveRun | WaitingOn
    | LatestDelivery | LastEvent | CreatedAt | UpdatedAt | Runs | Branches | Updates
    | RunId | BranchId | ExecutorKey | State | StartedAt | CompletedAt | OutputId | TaskId | AgentId | ContextId
    | CheckpointId | CheckpointSequence | ErrorText | CreatedSequence | SupersedesId
    | Status | CreatedBy | ForkedFrom | ForkedFromEvent | BaseSnapshot | ReasonCode | SelectedAt | RejectedAt
    | UpdateId | MessageId | TextId | KindName | ActorId | OccurredAt | NewRunId

  /** JSON values; ids, digests and timestamps are texts that are only ever copied. */
  datatype Doc =
    | Null
    | Number(number: int)
    | Word(text: string)
    | Name(id: Id)
    | Moment(at: Time)
    | EventRef(event: EventId)
    | Digest(artifact: Artifact)
    | Array(items: seq<Doc>)
    | Object(fields: map<Key, Doc>)

  // ---------------------------------------------------------------- enumerations by name

  function DesiredText(state: DesiredState): string {
    match state
    case Run => "run"
    case Pause => "pause"
    case Cancel => "cancel"
    case Archive => "archive"
  }

  function DesiredOf(text: string): Result<DesiredState> {
    if text == "run" then Ok(DesiredState.Run)
    else if text == "pause" then Ok(Pause)
    else if text == "cancel" then Ok(DesiredState.Cancel)
    else if text == "archive" then Ok(Archive)
    else Err(ValueError)
  }

  function ThreadText(state: ThreadState): string {
    match state
    case Created => "created"
    case Dormant => "dormant"
    case Queued => "queued"
    case Running => "running"
    case WaitingUser => "waiting_user"
    case WaitingApproval => "waiting_approval"
    case WaitingReceipt => "waiting_receipt"
    case WaitingDependency => "waiting_dependency"
    case WaitingResource => "waiting_resource"
    case Verifying => "verifying"
    case Delivered => "delivered"
    case Failed => "failed"
    case Paused => "paused"
    case Cancelled => "cancelled"
    case Archived => "archived"
  }

  function ThreadOfText(text: string): Result<ThreadState> {
    if text == "created" then Ok(ThreadState.Created)
    else if text == "dormant" then Ok(ThreadState.Dormant)
    else if text == "queued" then Ok(ThreadState.Queued)
    else if text == "running" then Ok(ThreadState.Running)
    else if text == "waiting_user" then Ok(ThreadState.WaitingUser)
    else if text == "waiting_approval" then Ok(ThreadState.WaitingApproval)
    else if text == "waiting_receipt" then Ok(ThreadState.WaitingReceipt)
    else if text == "waiting_dependency" then Ok(ThreadState.WaitingDependency)
    else if text == "waiting_resource" then Ok(ThreadState.WaitingResource)
    else if text == "verifying" then Ok(ThreadState.Verifying)
    else if text == "delivered" then Ok(ThreadState.Delivered)
    else if text == "failed" then Ok(ThreadState.Failed)
    else if text == "paused" then Ok(ThreadState.Paused)
    else if text == "cancelled" then Ok(ThreadState.Cancelled)
    else if text == "archived" then Ok(ThreadState.Archived)
    else Err(ValueError)
  }

  function AttentionText(state: AttentionState): string {
    match state
    case Calm => "none"
    case NeedsInput => "needs_input"
    case NeedsApproval => "needs_approval"
    case HasConflict => "has_conflict"
    case DeliveryReady => "delivery_ready"
    case Failed => "failed"
  }

  function AttentionOf(text: string): Result<AttentionState> {
    if text == "none" then Ok(Calm)
    else if text == "needs_input" then Ok(NeedsInput)
    else if text == "needs_approval" then Ok(NeedsApproval)
    else if text == "has_conflict" then Ok(HasConflict)
    else if text == "delivery_ready" then Ok(DeliveryReady)
    else if text == "failed" then Ok(AttentionState.Failed)
    else Err(ValueError)
  }

  function RunText(state: RunState): string {
    match state
    case Created => "created"
    case Queued => "queued"
    case Running => "running"
    case WaitingUser => "waiting_user"
    case WaitingApproval => "waiting_approval"
    case WaitingReceipt => "waiting_receipt"
    case WaitingDependency => "waiting_dependency"
    case WaitingResource => "waiting_resource"
    case Verifying => "verifying"
    case Completed => "completed"
    case Partial => "partial"
    case Failed => "failed"
    case Quarantined => "quarantined"
    case Cancelled => "cancelled"
  }

  function RunOfText(text: string): Result<RunState> {
    if text == "created" then Ok(RunState.Created)
    else if text == "queued" then Ok(RunState.Queued)
    else if text == "running" then Ok(RunState.Running)
    else if text == "waiting_user" then Ok(RunState.WaitingUser)
    else if text == "waiting_approval" then Ok(RunState.WaitingApproval)
    else if text == "waiting_receipt" then Ok(RunState.WaitingReceipt)
    else if text == "waiting_dependency" then Ok(RunState.WaitingDependency)
    else if text == "waiting_resource" then Ok(RunState.WaitingResource)
    else if text == "verifying" then Ok(RunState.Verifying)
    else if text == "completed" then Ok(RunState.Completed)
    else if text == "partial" then Ok(RunState.Partial)
    else if text == "failed" then Ok(RunState.Failed)
    else if text == "quarantined" then Ok(RunState.Quarantined)
    else if text == "cancelled" then Ok(RunState.Cancelled)
    else Err(ValueError)
  }

  function StatusText(status: BranchStatus): string {
    match status
    case Active => "active"
    case Selected => "selected"
    case Rejected => "rejected"
    case Merged => "merged"
  }

  function StatusOf(text: string): Result<BranchStatus> {
    if text == "active" then Ok(BranchStatus.Active)
    else if text == "selected" then Ok(BranchStatus.Selected)
    else if text == "rejected" then Ok(BranchStatus.Rejected)
    else if text == "merged" then Ok(BranchStatus.Merged)
    else Err(ValueError)
  }

  function KindText(kind: UpdateKind): string {
    match kind
    case Supplement => "supplement"
    case GoalChange => "goal_change"
    case MethodChange => "method_change"
    case Cancel => "cancel"
  }

  function KindOf(text: string): Result<UpdateKind> {
    if text == "supplement" then Ok(UpdateKind.Supplement)
    else if text == "goal_change" then Ok(UpdateKind.GoalChange)
    else if text == "method_change" then Ok(UpdateKind.MethodChange)
    else if text == "cancel" then Ok(UpdateKind.Cancel)
    else Err(ValueError)
  }

  // ---------------------------------------------------------------- writing

  function MaybeName(id: Option<Id>): Doc { if id.Some? then Name(id.value) else Null }
  function MaybeMoment(at: Option<Time>): Doc { if at.Some? then Moment(at.value) else Null }
  function MaybeDigest(a: Option<Artifact>): Doc { if a.Some? then Digest(a.value) else Null }
  function MaybeWord(text: Option<string>): Doc { if text.Some? then Word(text.value) else Null }
  function MaybeNumber(n: Option<nat>): Doc { if n.Some? then Number(n.value) else Null }
  function MaybeEvent(e: Option<EventId>): Doc { if e.Some? then EventRef(e.value) else Null }

  function Words(texts: seq<string>): Doc {
    Array(seq(|texts|, i requires 0 <= i < |texts| => Word(texts[i])))
  }

  function EncodeRun(run: RunProjection): Doc {
    Object(map[
      RunId := Name(run.runId), BranchId := Name(run.branchId), ExecutorKey := Word(run.executorKey),
      State := Word(RunText(run.state)), Revision := Number(run.revision), StartedAt := MaybeMoment(run.startedAt),
      CompletedAt := MaybeMoment(run.completedAt), WaitingOn := Words(run.waitingOn),
      OutputId := MaybeDigest(run.output), TaskId := MaybeDigest(run.task), AgentId := MaybeDigest(run.agent),
      ContextId := MaybeDigest(run.context), CheckpointId := MaybeDigest(run.checkpoint),
      CheckpointSequence := Number(run.checkpointSequence), ErrorText := MaybeWord(run.error),
      CreatedAt := Moment(run.createdAt), CreatedSequence := Number(run.createdSequence),
      SupersedesId := MaybeName(run.supersedes)])
  }

  function EncodeBranch(branch: BranchProjection): Doc {
    Object(map[
      BranchId := Name(branch.branchId), Status := Word(StatusText(branch.status)),
      CreatedBy := Word(branch.createdBy), CreatedAt := Moment(branch.createdAt),
      ForkedFrom := MaybeName(branch.forkedFrom), ForkedFromEvent := MaybeEvent(branch.forkedFromEvent),
      BaseSnapshot := MaybeNumber(branch.baseRevision), ReasonCode := MaybeWord(branch.reason),
      SelectedAt := MaybeMoment(branch.selectedAt), RejectedAt := MaybeMoment(branch.rejectedAt)])
  }

  function EncodeUpdate(update: ThreadUpdateProjection): Doc {
    Object(map[
      UpdateId := Name(update.updateId), MessageId := Digest(update.message), TextId := Digest(update.text),
      KindName := Word(KindText(update.kind)), ActorId := Word(update.actor), BranchId := Name(update.branchId),
      OccurredAt := Moment(update.at), TaskId := MaybeDigest(update.task), ContextId := MaybeDigest(update.context),
      NewRunId := MaybeName(update.newRun)])
  }

  /** `projection.as_dict()`; `runs` and `branches` list the ids in the order the tuples have them. */
  ghost function Encode(p: ThreadProjection, runs: seq<Id>, branches: seq<Id>): Doc {
    Object(map[
      ThreadId := Name(p.threadId), ProjectId := Word(p.projectId), Title := Word(p.title),
      Desired := Word(DesiredText(p.desired)), Actual := Word(ThreadText(p.actual)),
      Attention := Word(AttentionText(p.attention)), Revision := Number(p.revision),
      CurrentBranch := Name(p.currentBranch), ActiveRun := MaybeName(p.activeRun), WaitingOn := Words(p.waitingOn),
      LatestDelivery := MaybeName(p.latestDelivery), LastEvent := EventRef(p.lastEvent),
      CreatedAt := Moment(p.createdAt), UpdatedAt := Moment(p.updatedAt), Runs := Array(RunDocs(p, runs)),
      Branches := Array(BranchDocs(p, branches)), Updates := Array(UpdateDocs(p))])
  }

  ghost function RunDocs(p: ThreadProjection, ids: seq<Id>): seq<Doc> {
    seq(|ids|, i requires 0 <= i < |ids| => EncodeRun(RunAt(p, ids[i])))
  }

  ghost function BranchDocs(p: ThreadProjection, ids: seq<Id>): seq<Doc> {
    seq(|ids|, i requires 0 <= i < |ids| => EncodeBranch(Row(p.branches, ids[i])))
  }

  function UpdateDocs(p: ThreadProjection): seq<Doc> {
    seq(|p.updates|, i requires 0 <= i < |p.updates| => EncodeUpdate(p.updates[i]))
  }

  /** The ids of a table, each once, in some order. */
  ghost predicate ListsOnce(ids: seq<Id>, keys: set<Id>) {
    && (forall i :: 0 <= i < |ids| ==> ids[i] in keys)
    && (forall k :: k in keys ==> k in ids)
    && (forall i, j :: 0 <= i < j < |ids| ==> ids[i] != ids[j])
  }

  // ---------------------------------------------------------------- reading

  /** `item[key]`: an absent member raises. */
  function At(fields: map<Key, Doc>, key: Key): Result<Doc> {
    if key in fields then Ok(fields[key]) else Err(ValueError)
  }

  /** `item.get(key)`. */
  function Get(fields: map<Key, Doc>, key: Key): Doc {
    if key in fields then fields[key] else Null
  }

  function AsName(doc: Doc): Result<Id> { if doc.Name? then Ok(doc.id) else Err(ValueError) }
  function AsWord(doc: Doc): Result<string> { if doc.Word? then Ok(doc.text) else Err(ValueError) }
  function AsMoment(doc: Doc): Result<Time> { if doc.Moment? then Ok(doc.at) else Err(ValueError) }
  function AsDigest(doc: Doc): Result<Artifact> { if doc.Digest? then Ok(doc.artifact) else Err(ValueError) }
  function AsEvent(doc: Doc): Result<EventId> { if doc.EventRef? then Ok(doc.event) else Err(ValueError) }
  function AsArray(doc: Doc): Result<seq<Doc>> { if doc.Array? then Ok(doc.items) else Err(ValueError) }

  function AsNumber(doc: Doc): Result<nat> {
    if doc.Number? && doc.number >= 0 then Ok(doc.number) else Err(ValueError)
  }

  function ReadName(doc: Doc): Result<Option<Id>> {
    if doc.Null? then Ok(None) else if doc.Name? then Ok(Some(doc.id)) else Err(ValueError)
  }

  function ReadMoment(doc: Doc): Result<Option<Time>> {
    if doc.Null? then Ok(None) else if doc.Moment? then Ok(Some(doc.at)) else Err(ValueError)
  }

  function ReadDigest(doc: Doc): Result<Option<Artifact>> {
    if doc.Null? then Ok(None) else if doc.Digest? then Ok(Some(doc.artifact)) else Err(ValueError)
  }

  function ReadWord(doc: Doc): Result<Option<string>> {
    if doc.Null? then Ok(None) else if doc.Word? then Ok(Some(doc.text)) else Err(ValueError)
  }

  function ReadEvent(doc: Doc): Result<Option<EventId>> {
    if doc.Null? then Ok(None) else if doc.EventRef? then Ok(Some(doc.event)) else Err(ValueError)
  }

  function ReadNumber(doc: Doc): Result<Option<nat>> {
    if doc.Null? then Ok(None)
    else if doc.Number? && doc.number >= 0 then Ok(Some(doc.number))
    else Err(ValueError)
  }

  /** `[read(item) for item in items]`. */
  function Each<T>(items: seq<Doc>, read: Doc -> Result<T>): Result<seq<T>> {
    if items == [] then Ok([])
    else
      var earlier :- Each(items[..|items| - 1], read);
      var last :- read(items[|items| - 1]);
      Ok(earlier + [last])
  }

  /** `tuple(item.get("waiting_on") or ())`. */
  function ReadWords(doc: Doc): Result<seq<string>> {
    if doc.Null? then Ok([])
    else
      var items :- AsArray(doc);
      Each(items, AsWord)
  }

  /** `str(item.get("executor_key") or "unassigned")`. */
  function ExecutorOf(doc: Doc): Result<string> {
    if doc.Null? then Ok("unassigned")
    else
      var text :- AsWord(doc);
      Ok(if text == "" then "unassigned" else text)
  }

  function DecodeRun(doc: Doc): Result<RunProjection> {
    if !doc.Object? then Err(ValueError)
    else
      var run :- DecodeLife(doc.fields);
      DecodeProducts(doc.fields, run)
  }

  /** Where the Run is in its life. */
  function DecodeLife(f: map<Key, Doc>): Result<RunProjection> {
    var runId :- At(f, RunId);
    var id :- AsName(runId);
    var branchId :- At(f, BranchId);
    var branch :- AsName(branchId);
    var executor :- ExecutorOf(Get(f, ExecutorKey));
    var stateName :- At(f, State);
    var stateText :- AsWord(stateName);
    var state :- RunOfText(stateText);
    var revisionNumber :- At(f, Revision);
    var revision :- AsNumber(revisionNumber);
    var started :- ReadMoment(Get(f, StartedAt));
    var completed :- ReadMoment(Get(f, CompletedAt));
    var waiting :- ReadWords(Get(f, WaitingOn));
    var created :- AsMoment(Get(f, CreatedAt));
    Ok(RunProjection(
      id, branch, executor, state, revision, started, completed, waiting, None, None, None, None, None, 0, None,
      created, 0, None))
  }

  /** What it was given, made and replaced. */
  function DecodeProducts(f: map<Key, Doc>, run: RunProjection): Result<RunProjection> {
    var output :- ReadDigest(Get(f, OutputId));
    var task :- ReadDigest(Get(f, TaskId));
    var agent :- ReadDigest(Get(f, AgentId));
    var context :- ReadDigest(Get(f, ContextId));
    var checkpoint :- ReadDigest(Get(f, CheckpointId));
    var sequence :- AsNumber(if CheckpointSequence in f then f[CheckpointSequence] else Number(0));
    var error :- ReadWord(Get(f, ErrorText));
    var order :- AsNumber(if CreatedSequence in f then f[CreatedSequence] else Number(0));
    var supersedes :- ReadName(Get(f, SupersedesId));
    Ok(run.(output := output, task := task, agent := agent, context := context, checkpoint := checkpoint,
            checkpointSequence := sequence, error := error, createdSequence := order, supersedes := supersedes))
  }

  function DecodeBranch(doc: Doc): Result<BranchProjection> {
    if !doc.Object? then Err(ValueError)
    else
      var f := doc.fields;
      var branchId :- At(f, BranchId);
      var id :- AsName(branchId);
      var statusName :- At(f, Status);
      var statusText :- AsWord(statusName);
      var status :- StatusOf(statusText);
      var createdBy :- At(f, CreatedBy);
      var creator :- AsWord(createdBy);
      var createdAt :- At(f, CreatedAt);
      var created :- AsMoment(createdAt);
      var source :- ReadName(Get(f, ForkedFrom));
      var event :- ReadEvent(Get(f, ForkedFromEvent));
      var base :- ReadNumber(Get(f, BaseSnapshot));
      var reason :- ReadWord(Get(f, ReasonCode));
      var selected :- ReadMoment(Get(f, SelectedAt));
      var rejected :- ReadMoment(Get(f, RejectedAt));
      Ok(BranchProjection(id, status, creator, created, source, event, base, reason, selected, rejected))
  }

  function DecodeUpdate(doc: Doc): Result<ThreadUpdateProjection> {
    if !doc.Object? then Err(ValueError)
    else
      var f := doc.fields;
      var updateId :- At(f, UpdateId);
      var id :- AsName(updateId);
      var messageId :- At(f, MessageId);
      var message :- AsDigest(messageId);
      var textId :- At(f, TextId);
      var text :- AsDigest(textId);
      var kindName :- At(f, KindName);
      var kindText :- AsWord(kindName);
      var kind :- KindOf(kindText);
      var actorId :- At(f, ActorId);
      var actor :- AsWord(actorId);
      var branchId :- At(f, BranchId);
      var branch :- AsName(branchId);
      var occurred :- At(f, OccurredAt);
      var at :- AsMoment(occurred);
      var task :- ReadDigest(Get(f, TaskId));
      var context :- ReadDigest(Get(f, ContextId));
      var newRun :- ReadName(Get(f, NewRunId));
      Ok(ThreadUpdateProjection(id, message, text, kind, actor, branch, at, task, context, newRun))
  }

  /** The tuple of Runs as a table. */
  function RunTable(runs: seq<RunProjection>): map<Id, RunProjection> {
    if runs == [] then map[] else RunTable(runs[..|runs| - 1])[runs[|runs| - 1].runId := runs[|runs| - 1]]
  }

  function BranchTable(branches: seq<BranchProjection>): map<Id, BranchProjection> {
    if branches == [] then map[]
    else BranchTable(branches[..|branches| - 1])[branches[|branches| - 1].branchId := branches[|branches| - 1]]
  }

  /** A list member that may be missing. */
  function Items(doc: Doc): Result<seq<Doc>> {
    if doc.Null? then Ok([]) else AsArray(doc)
  }

  /** `_projection_from_json`. */
  function Decode(doc: Doc): Result<ThreadProjection> {
    if !doc.Object? then Err(ValueError)
    else
      var f := doc.fields;
      var runDocs :- Items(Get(f, Runs));
      var runs :- Each(runDocs, DecodeRun);
      var branchDocs :- Items(Get(f, Branches));
      var branches :- Each(branchDocs, DecodeBranch);
      var updateDocs :- Items(Get(f, Updates));
      var updates :- Each(updateDocs, DecodeUpdate);
      DecodeThread(f, RunTable(runs), BranchTable(branches), updates)
  }

  function DecodeThread(
    f: map<Key, Doc>, runs: map<Id, RunProjection>, branches: map<Id, BranchProjection>,
    updates: seq<ThreadUpdateProjection>): Result<ThreadProjection>
  {
    var threadId :- At(f, ThreadId);
    var id :- AsName(threadId);
    var projectId :- At(f, ProjectId);
    var project :- AsWord(projectId);
    var titleText :- At(f, Title);
    var title :- AsWord(titleText);
    var desiredName :- At(f, Desired);
    var desiredText :- AsWord(desiredName);
    var desired :- DesiredOf(desiredText);
    var actualName :- At(f, Actual);
    var actualText :- AsWord(actualName);
    var actual :- ThreadOfText(actualText);
    var attentionName :- At(f, Attention);
    var attentionText :- AsWord(attentionName);
    var attention :- AttentionOf(attentionText);
    var revisionNumber :- At(f, Revision);
    var revision :- AsNumber(revisionNumber);
    var current :- AsName(if CurrentBranch in f then f[CurrentBranch] else Name(Lit("main")));
    var active :- ReadName(Get(f, ActiveRun));
    var waiting :- ReadWords(Get(f, WaitingOn));
    var delivery :- ReadName(Get(f, LatestDelivery));
    var last :- AsEvent(Get(f, LastEvent));
    var created :- AsMoment(Get(f, CreatedAt));
    var updated :- AsMoment(Get(f, UpdatedAt));
    Ok(ThreadProjection(
      id, project, title, desired, actual, attention, revision, current, active, waiting, delivery, last, created,
      updated, runs, branches, updates))
  }

  // =========================================================================== round trip
  // Storage loses nothing: decoding an encoded projection gives it back.

  lemma NamesRead(desired: DesiredState, attention: AttentionState, status: BranchStatus, kind: UpdateKind)
    ensures DesiredOf(DesiredText(desired)) == Ok(desired)
    ensures AttentionOf(AttentionText(attention)) == Ok(attention)
    ensures StatusOf(StatusText(status)) == Ok(status)
    ensures KindOf(KindText(kind)) == Ok(kind)
  {
  }

  /** What the stored form keeps of a Run: everything, but an empty executor key reads as unassigned. */
  function Kept(run: RunProjection): RunProjection {
    run.(executorKey := if run.executorKey == "" then "unassigned" else run.executorKey)
  }

  lemma WordsRead(texts: seq<string>)
    ensures ReadWords(Words(texts)) == Ok(texts)
  {
    EachRead(Words(texts).items, AsWord, texts);
  }

  ghost predicate Has(f: map<Key, Doc>, key: Key, doc: Doc) {
    key in f && f[key] == doc
  }

  ghost predicate StoresLife(f: map<Key, Doc>, run: RunProjection) {
    StoresOrigin(f, run) && StoresState(f, run)
  }

  ghost predicate StoresOrigin(f: map<Key, Doc>, run: RunProjection) {
    && Has(f, RunId, Name(run.runId)) && Has(f, BranchId, Name(run.branchId))
    && Has(f, ExecutorKey, Word(run.executorKey)) && Has(f, CreatedAt, Moment(run.createdAt))
  }

  ghost predicate StoresState(f: map<Key, Doc>, run: RunProjection) {
    && Has(f, State, Word(RunText(run.state))) && Has(f, Revision, Number(run.revision))
    && Has(f, StartedAt, MaybeMoment(run.startedAt))
    && Has(f, CompletedAt, MaybeMoment(run.completedAt)) && Has(f, WaitingOn, Words(run.waitingOn))
  }

  ghost predicate StoresProducts(f: map<Key, Doc>, run: RunProjection) {
    && Has(f, OutputId, MaybeDigest(run.output)) && Has(f, TaskId, MaybeDigest(run.task))
    && Has(f, AgentId, MaybeDigest(run.agent)) && Has(f, ContextId, MaybeDigest(run.context))
    && Has(f, CheckpointId, MaybeDigest(run.checkpoint))
    && Has(f, CheckpointSequence, Number(run.checkpointSequence)) && Has(f, ErrorText, MaybeWord(run.error))
    && Has(f, CreatedSequence, Number(run.createdSequence)) && Has(f, SupersedesId, MaybeName(run.supersedes))
  }

  lemma LifeStored(run: RunProjection)
    ensures EncodeRun(run).Object? && StoresLife(EncodeRun(run).fields, run)
  {
    assert EncodeRun(run).Object? && StoresOrigin(EncodeRun(run).fields, run);
    assert EncodeRun(run).Object? && StoresState(EncodeRun(run).fields, run);
  }

  lemma ProductsStored(run: RunProjection)
    ensures EncodeRun(run).Object? && StoresProducts(EncodeRun(run).fields, run)
  {
    hide RunText, Words, MaybeDigest, MaybeWord, MaybeName, MaybeMoment;
  }

  lemma LifeRead(f: map<Key, Doc>, run: RunProjection)
    requires StoresLife(f, run)
    ensures DecodeLife(f) == Ok(Kept(run).(
      output := None, task := None, agent := None, context := None, checkpoint := None, checkpointSequence := 0,
      error := None, createdSequence := 0, supersedes := None))
  {
    assert RunOfText(RunText(run.state)) == Ok(run.state);
    EachRead(Words(run.waitingOn).items, AsWord, run.waitingOn);
  }

  lemma RunRead(run: RunProjection)
    ensures DecodeRun(EncodeRun(run)) == Ok(Kept(run))
  {
    hide EncodeRun, DecodeLife, StoresLife;
    LifeStored(run);
    ProductsStored(run);
    var f := EncodeRun(run).fields;
    LifeRead(f, run);
    assert DecodeProducts(f, DecodeLife(f).value) == Ok(Kept(run));
  }

  lemma BranchRead(branch: BranchProjection)
    ensures DecodeBranch(EncodeBranch(branch)) == Ok(branch)
  {
    assert StatusOf(StatusText(branch.status)) == Ok(branch.status);
  }

  /** Reading a list of documents one by one. */
  lemma {:induction false} EachRead<T>(items: seq<Doc>, read: Doc -> Result<T>, values: seq<T>)
    requires |items| == |values|
    requires forall i :: 0 <= i < |items| ==> read(items[i]) == Ok(values[i])
    ensures Each(items, read) == Ok(values)
    decreases |items|
  {
    if items != [] {
      var n := |items| - 1;
      EachRead(items[..n], read, values[..n]);
      assert values == values[..n] + [values[n]];
    }
  }

  /** The rows of a Thread carry the ids they are stored under. */
  ghost predicate Keyed(p: ThreadProjection) {
    && (forall r :: r in p.runs ==> RunAt(p, r).runId == r)
    && (forall b :: b in p.branches ==> Row(p.branches, b).branchId == b)
  }

  ghost predicate Indexes<T>(table: map<Id, T>, ids: seq<Id>, rows: seq<T>) {
    && |ids| == |rows| && (forall k :: k in table <==> k in ids)
    && forall i :: 0 <= i < |ids| ==> ids[i] in table && table[ids[i]] == rows[i]
  }

  predicate Distinct(ids: seq<Id>) {
    forall i, j :: 0 <= i < j < |ids| ==> ids[i] != ids[j]
  }

  ghost predicate Named<T>(ids: seq<Id>, rows: seq<T>, name: T -> Id) {
    |ids| == |rows| && forall i :: 0 <= i < |ids| ==> name(rows[i]) == ids[i]
  }

  lemma AddRow<T>(table: map<Id, T>, ids: seq<Id>, rows: seq<T>, id: Id, row: T)
    requires Indexes(table, ids, rows) && id !in ids
    ensures Indexes(table[id := row], ids + [id], rows + [row])
  {
  }

  lemma {:induction false} RunTableRead(ids: seq<Id>, runs: seq<RunProjection>)
    requires Distinct(ids) && Named(ids, runs, (r: RunProjection) => r.runId)
    ensures Indexes(RunTable(runs), ids, runs)
    decreases |runs|
  {
    if ids != [] {
      var n := |ids| - 1;
      assert ids[n] !in ids[..n] && runs[n].runId == ids[n];
      RunTableRead(ids[..n], runs[..n]);
      hide Distinct, Named, Indexes;
      AddRow(RunTable(runs[..n]), ids[..n], runs[..n], ids[n], runs[n]);
      SplitLast(ids);
      SplitLast(runs);
    }
  }

  lemma {:induction false} BranchTableRead(ids: seq<Id>, branches: seq<BranchProjection>)
    requires Distinct(ids) && Named(ids, branches, (b: BranchProjection) => b.branchId)
    ensures Indexes(BranchTable(branches), ids, branches)
    decreases |branches|
  {
    if ids != [] {
      var n := |ids| - 1;
      assert ids[n] !in ids[..n] && branches[n].branchId == ids[n];
      BranchTableRead(ids[..n], branches[..n]);
      hide Distinct, Named, Indexes;
      AddRow(BranchTable(branches[..n]), ids[..n], branches[..n], ids[n], branches[n]);
      SplitLast(ids);
      SplitLast(branches);
    }
  }

  /** The Thread as it comes back from storage. */
  function KeptThread(p: ThreadProjection): ThreadProjection {
    p.(runs := map r | r in p.runs :: Kept(p.runs[r]))
  }

  lemma RunsRead(p: ThreadProjection, ids: seq<Id>)
    requires Keyed(p) && ListsOnce(ids, p.runs.Keys)
    ensures var docs := RunDocs(p, ids);
      && Each(docs, DecodeRun).Ok?
      && RunTable(Each(docs, DecodeRun).value) == KeptThread(p).runs
  {
    hide DecodeRun, EncodeRun, RunTable, Each;
    var docs := RunDocs(p, ids);
    var runs := seq(|ids|, i requires 0 <= i < |ids| => Kept(p.runs[ids[i]]));
    forall i | 0 <= i < |ids|
      ensures DecodeRun(docs[i]) == Ok(runs[i])
    {
      RunRead(p.runs[ids[i]]);
    }
    EachRead(docs, DecodeRun, runs);
    RunTableRead(ids, runs);
    assert RunTable(runs) == KeptThread(p).runs;
  }

  lemma BranchesRead(p: ThreadProjection, ids: seq<Id>)
    requires Keyed(p) && ListsOnce(ids, p.branches.Keys)
    ensures var docs := BranchDocs(p, ids);
      && Each(docs, DecodeBranch).Ok?
      && BranchTable(Each(docs, DecodeBranch).value) == p.branches
  {
    hide DecodeBranch, EncodeBranch, BranchTable, Each;
    var docs := BranchDocs(p, ids);
    var branches := seq(|ids|, i requires 0 <= i < |ids| => p.branches[ids[i]]);
    forall i | 0 <= i < |ids|
      ensures DecodeBranch(docs[i]) == Ok(branches[i])
    {
      BranchRead(p.branches[ids[i]]);
    }
    EachRead(docs, DecodeBranch, branches);
    BranchTableRead(ids, branches);
    assert BranchTable(branches) == p.branches;
  }

  lemma UpdatesRead(p: ThreadProjection)
    ensures Each(UpdateDocs(p), DecodeUpdate) == Ok(p.updates)
  {
    hide Each;
    var docs := UpdateDocs(p);
    forall i | 0 <= i < |p.updates|
      ensures DecodeUpdate(docs[i]) == Ok(p.updates[i])
    {
    }
    EachRead(docs, DecodeUpdate, p.updates);
  }

  ghost predicate StoresThread(f: map<Key, Doc>, p: ThreadProjection) {
    StoresGoal(f, p) && StoresProgress(f, p)
  }

  ghost predicate StoresGoal(f: map<Key, Doc>, p: ThreadProjection) {
    && Has(f, ThreadId, Name(p.threadId)) && Has(f, ProjectId, Word(p.projectId))
    && Has(f, Title, Word(p.title)) && Has(f, Desired, Word(DesiredText(p.desired)))
    && Has(f, Actual, Word(ThreadText(p.actual))) && Has(f, Attention, Word(AttentionText(p.attention)))
  }

  ghost predicate StoresProgress(f: map<Key, Doc>, p: ThreadProjection) {
    && Has(f, Revision, Number(p.revision)) && Has(f, CurrentBranch, Name(p.currentBranch))
    && Has(f, ActiveRun, MaybeName(p.activeRun)) && Has(f, WaitingOn, Words(p.waitingOn))
    && Has(f, LatestDelivery, MaybeName(p.latestDelivery)) && Has(f, LastEvent, EventRef(p.lastEvent))
    && Has(f, CreatedAt, Moment(p.createdAt)) && Has(f, UpdatedAt, Moment(p.updatedAt))
  }

  ghost predicate StoresTables(f: map<Key, Doc>, p: ThreadProjection, runs: seq<Doc>, branches: seq<Doc>) {
    Has(f, Runs, Array(runs)) && Has(f, Branches, Array(branches)) && Has(f, Updates, Array(UpdateDocs(p)))
  }

  lemma ThreadStored(p: ThreadProjection, runs: seq<Id>, branches: seq<Id>)
    requires ListsOnce(runs, p.runs.Keys) && ListsOnce(branches, p.branches.Keys)
    ensures Encode(p, runs, branches).Object? && StoresThread(Encode(p, runs, branches).fields, p)
  {
    hide StoresGoal, MaybeName, RunText;
    GoalStored(p, runs, branches);
    assert Encode(p, runs, branches).Object? && StoresProgress(Encode(p, runs, branches).fields, p);
  }

  lemma GoalStored(p: ThreadProjection, runs: seq<Id>, branches: seq<Id>)
    requires ListsOnce(runs, p.runs.Keys) && ListsOnce(branches, p.branches.Keys)
    ensures Encode(p, runs, branches).Object? && StoresGoal(Encode(p, runs, branches).fields, p)
  {
    hide RunDocs, BranchDocs, UpdateDocs, ThreadText, DesiredText, AttentionText, Words, MaybeName, ListsOnce;
  }

  lemma ThreadRead(
    f: map<Key, Doc>, p: ThreadProjection, runs: map<Id, RunProjection>, branches: map<Id, BranchProjection>,
    updates: seq<ThreadUpdateProjection>)
    requires StoresThread(f, p)
    ensures DecodeThread(f, runs, branches, updates) == Ok(p.(runs := runs, branches := branches, updates := updates))
  {
    hide ReadWords, Words, DesiredOf, DesiredText, AttentionOf, AttentionText;
    WordsRead(p.waitingOn);
    assert ThreadOfText(ThreadText(p.actual)) == Ok(p.actual);
    NamesRead(p.desired, p.attention, BranchStatus.Active, Supplement);
  }

  /** Decoding what was encoded restores the Thread, up to empty executor keys. */
  lemma DecodeEncode(p: ThreadProjection, runs: seq<Id>, branches: seq<Id>)
    requires Keyed(p) && ListsOnce(runs, p.runs.Keys) && ListsOnce(branches, p.branches.Keys)
    ensures Decode(Encode(p, runs, branches)) == Ok(KeptThread(p))
  {
    hide DecodeRun, RunTable, RunDocs, DecodeBranch, BranchTable, BranchDocs, DecodeUpdate, UpdateDocs, Each,
      DecodeThread, StoresThread;
    RunsRead(p, runs);
    BranchesRead(p, branches);
    UpdatesRead(p);
    ThreadStored(p, runs, branches);
    assert StoresTables(Encode(p, runs, branches).fields, p, RunDocs(p, runs), BranchDocs(p, branches));
    ThreadRead(Encode(p, runs, branches).fields, p, KeptThread(p).runs, p.branches, p.updates);
  }

  /** The round trip is the identity exactly on the Threads whose Runs all name an executor. */
  lemma RoundTripIff(p: ThreadProjection, runs: seq<Id>, branches: seq<Id>)
    requires Keyed(p) && ListsOnce(runs, p.runs.Keys) && ListsOnce(branches, p.branches.Keys)
    ensures Decode(Encode(p, runs, branches)) == Ok(p) <==>
      forall r :: r in p.runs ==> RunAt(p, r).executorKey != ""
  {
    hide Decode, Encode, ListsOnce;
    DecodeEncode(p, runs, branches);
    forall r | r in p.runs && KeptThread(p) == p
      ensures p.runs[r].executorKey != ""
    {
      assert KeptThread(p).runs[r] == Kept(p.runs[r]);
    }
    assert (forall r :: r in p.runs ==> Kept(p.runs[r]) == p.runs[r]) ==> KeptThread(p).runs == p.runs;
  }

  // ---------------------------------------------------------------- what the reducer makes

  /** Threads the store can give back unchanged. */
  ghost predicate Storable(p: ThreadProjection) {
    Keyed(p) && forall r :: r in p.runs ==> p.runs[r].executorKey != ""
  }

  ghost predicate RunsStorable(p: ThreadProjection) {
    forall r :: r in p.runs ==> p.runs[r].runId == r && p.runs[r].executorKey != ""
  }

  lemma ReduceKeysBranches(p: ThreadProjection, event: Event, change: ThreadEvent, q: ThreadProjection)
    requires Keyed(p) && ReduceExisting(p, event, change) == Ok(q)
    ensures forall b :: b in q.branches ==> Row(q.branches, b).branchId == b
  {
    hide ThreadTransitions, RunTransitions, Terminal;
  }

  lemma ReduceKeepsStorable(p: ThreadProjection, event: Event, change: ThreadEvent, q: ThreadProjection)
    requires Storable(p) && ReduceExisting(p, event, change) == Ok(q)
    ensures Storable(q)
  {
    ReduceKeysBranches(p, event, change, q);
    hide ThreadTransitions, RunTransitions, Terminal, AppendMessage, ForkBranch, SelectBranch, RejectBranch;
    if !change.RunCreated? && !change.RunStateChanged? && !change.SnapshotsBound? && !change.CheckpointRecorded? {
      OthersKeepRuns(p, event, change);
      hide ReduceExisting;
    }
    assert RunsStorable(q);
  }

  /** Along every accepted stream: the reducer itself fills an empty executor key in. */
  lemma {:induction false} ReplayStorable(journal: seq<Event>, thread: Id, p: ThreadProjection)
    requires Replay(journal, thread) == Ok(Some(p))
    ensures Storable(p)
    decreases |journal|
  {
    hide ReduceExisting;
    var n := |journal| - 1;
    var earlier := Replay(journal[..n], thread);
    if earlier.value.Some? {
      ReplayStorable(journal[..n], thread, earlier.value.value);
      if journal[n].stream == ThreadStream(thread) {
        ReduceKeepsStorable(earlier.value.value, journal[n], journal[n].body.thread, p);
      }
    } else if journal[n].stream == ThreadStream(thread) {
      assert Storable(NewThread(journal[n], journal[n].body.thread));
    }
  }
}
