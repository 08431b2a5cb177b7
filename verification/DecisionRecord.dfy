/** The deterministic executor that turns frozen sources into one draft decision record. */
module DecisionRecord {
  import opened Prelude

  /** A JSON value as far as the workflow looks at it: a missing or null value, a string, or any
      other value with its `str()` and its truth. */
  datatype Json = Null | Text(text: string) | Other(repr: string, truthy: bool)

  predicate Truthy(value: Json) {
    match value
    case Null => false
    case Text(text) => text != ""
    case Other(_, truthy) => truthy
  }

  /** `str(value)`. */
  function Str(value: Json): string {
    match value
    case Null => "None"
    case Text(text) => text
    case Other(repr, _) => repr
  }

  datatype Metadata = Metadata(snapshotId: Json, refId: Json, revisionId: Json, envelopeId: Json)

  datatype ManifestItem = ManifestItem(
    isSource: bool, ordinal: int, artifact: Json, metadata: Option<Metadata>, allowedUse: Json)

  /** A fixture field: absent, null, of another type, or an array. An absent field reads as an empty
      tuple, which is not an array. */
  datatype Field = Absent | NullField | NotAnArray | Entries(entries: seq<string>)

  datatype Payload = Payload(
    title: Json, background: Field, facts: Field, decisions: Field, actionItems: Field, openQuestions: Field,
    risks: Field)

  /** Stored bytes: their length, and the JSON object they hold if they hold one. */
  datatype Content = Content(size: nat, payload: Option<Payload>)

  type Artifacts = map<string, Content>

  datatype Failure =
    | SourceMissing | BudgetExceeded | NotBound | MetadataMissing | MetadataIncomplete | UseNotAllowed
    | ArtifactMissing | FixtureInvalid

  datatype Outcome<+T> = Good(value: T) | Bad(failure: Failure)

  datatype Loaded = Loaded(
    artifact: string, snapshotId: string, refId: string, revisionId: string, payload: Payload)

  datatype Citation = Citation(snapshotId: Json, refId: Json, revisionId: Json, artifact: Json, pointer: Json)

  datatype Revision = Revision(snapshotId: Json, revisionId: Json)

  /** A draft as the verifier reads it; None in a list stands for an element that is no object. */
  datatype Draft = Draft(
    artifactType: Json, versionIsOne: bool, title: Json, audience: Json, publishableIsFalse: bool,
    sourceIds: Option<seq<Json>>, sections: Option<map<string, Field>>, citations: Option<seq<Option<Citation>>>,
    revisions: Option<seq<Option<Revision>>>)

  predicate AllowedUse(use: Json) {
    use == Text("direct") || use == Text("artifact_only")
  }

  predicate Complete(m: Metadata) {
    Truthy(m.snapshotId) && Truthy(m.refId) && Truthy(m.revisionId) && Truthy(m.envelopeId)
  }

  /** One turn of the loading loop: the source and the bytes read so far. */
  function LoadOne(item: ManifestItem, inputs: set<string>, store: Artifacts, total: nat, limit: int)
    : Outcome<(Loaded, nat)>
  {
    if !item.artifact.Text? || item.artifact.text !in inputs then Bad(NotBound)
    else if item.metadata.None? then Bad(MetadataMissing)
    else if !Complete(item.metadata.value) then Bad(MetadataIncomplete)
    else if !AllowedUse(item.allowedUse) then Bad(UseNotAllowed)
    else if item.artifact.text !in store then Bad(ArtifactMissing)
    else
      var content := store[item.artifact.text];
      var m := item.metadata.value;
      if total + content.size > limit then Bad(BudgetExceeded)
      else if content.payload.None? then Bad(FixtureInvalid)
      else
        Good((Loaded(item.artifact.text, Str(m.snapshotId), Str(m.refId), Str(m.revisionId), content.payload.value),
              total + content.size))
  }

  /** The loop over the sources in ordinal order. */
  function LoadAll(items: seq<ManifestItem>, inputs: set<string>, store: Artifacts, limit: int)
    : Outcome<(seq<Loaded>, nat)>
  {
    if items == [] then Good(([], 0))
    else
      var earlier := LoadAll(items[..|items| - 1], inputs, store, limit);
      if earlier.Bad? then Bad(earlier.failure)
      else
        var next := LoadOne(items[|items| - 1], inputs, store, earlier.value.1, limit);
        if next.Bad? then Bad(next.failure) else Good((earlier.value.0 + [next.value.0], next.value.1))
  }

  /** Once a turn fails the loop is over: the failure is the whole loop's. */
  lemma {:induction false} LoadFails(
    first: seq<ManifestItem>, rest: seq<ManifestItem>, inputs: set<string>, store: Artifacts, limit: int)
    requires LoadAll(first, inputs, store, limit).Bad?
    ensures LoadAll(first + rest, inputs, store, limit) == LoadAll(first, inputs, store, limit)
    decreases |rest|
  {
    if rest == [] {
      assert first + rest == first;
    } else {
      assert (first + rest)[..|first + rest| - 1] == first + rest[..|rest| - 1];
      LoadFails(first, rest[..|rest| - 1], inputs, store, limit);
    }
  }

  method Load(items: seq<ManifestItem>, inputs: set<string>, store: Artifacts, limit: int)
    returns (r: Outcome<(seq<Loaded>, nat)>)
    ensures r == LoadAll(items, inputs, store, limit)
  {
    var loaded: seq<Loaded> := [];
    var totalBytes: nat := 0;
    var i := 0;
    while i < |items|
      invariant 0 <= i <= |items|
      invariant LoadAll(items[..i], inputs, store, limit) == Good((loaded, totalBytes))
    {
      assert items[..i + 1][..i] == items[..i];
      var next := LoadOne(items[i], inputs, store, totalBytes, limit);
      if next.Bad? {
        assert items[..i + 1] + items[i + 1..] == items;
        LoadFails(items[..i + 1], items[i + 1..], inputs, store, limit);
        return Bad(next.failure);
      }
      loaded, totalBytes := loaded + [next.value.0], next.value.1;
      i := i + 1;
    }
    assert items[..i] == items;
    return Good((loaded, totalBytes));
  }

  /** `_collect`: the entries of one field over all sources, in order. */
  function Collected(sources: seq<Loaded>, field: Payload -> Field): Outcome<seq<string>> {
    if sources == [] then Good([])
    else
      var earlier := Collected(sources[..|sources| - 1], field);
      if earlier.Bad? then earlier
      else
        match field(sources[|sources| - 1].payload)
        case NullField => earlier
        case Absent => Bad(FixtureInvalid)
        case NotAnArray => Bad(FixtureInvalid)
        case Entries(entries) => Good(earlier.value + entries)
  }

  lemma {:induction false} CollectFails(first: seq<Loaded>, rest: seq<Loaded>, field: Payload -> Field)
    requires Collected(first, field) == Bad(FixtureInvalid)
    ensures Collected(first + rest, field) == Bad(FixtureInvalid)
    decreases |rest|
  {
    if rest == [] {
      assert first + rest == first;
    } else {
      assert (first + rest)[..|first + rest| - 1] == first + rest[..|rest| - 1];
      CollectFails(first, rest[..|rest| - 1], field);
    }
  }

  /** A field is collected exactly when every source has it, as an array or as null. */
  lemma {:induction false} CollectedIff(sources: seq<Loaded>, field: Payload -> Field)
    ensures Collected(sources, field).Good? <==>
      forall i :: 0 <= i < |sources| ==> field(sources[i].payload).NullField? || field(sources[i].payload).Entries?
    decreases |sources|
  {
    if sources != [] {
      CollectedIff(sources[..|sources| - 1], field);
    }
  }

  method Collect(sources: seq<Loaded>, field: Payload -> Field) returns (r: Outcome<seq<string>>)
    ensures r == Collected(sources, field)
  {
    var collected: seq<string> := [];
    var i := 0;
    while i < |sources|
      invariant 0 <= i <= |sources|
      invariant Collected(sources[..i], field) == Good(collected)
    {
      assert sources[..i + 1][..i] == sources[..i];
      match field(sources[i].payload) {
        case NullField =>
        case Entries(entries) => collected := collected + entries;
        case _ =>
          assert sources[..i + 1] + sources[i + 1..] == sources;
          CollectFails(sources[..i + 1], sources[i + 1..], field);
          return Bad(FixtureInvalid);
      }
      i := i + 1;
    }
    assert sources[..i] == sources;
    return Good(collected);
  }

  /** `_title`. */
  function TitleOf(sources: seq<Loaded>, objective: Json): string {
    if |sources| == 1 && Truthy(sources[0].payload.title) then Str(sources[0].payload.title)
    else if Truthy(objective) then Str(objective)
    else "Project Decision Record"
  }

  function SourcesOf(items: seq<ManifestItem>): seq<ManifestItem> {
    if items == [] then []
    else
      SourcesOf(items[..|items| - 1]) + if items[|items| - 1].isSource then [items[|items| - 1]] else []
  }

  function ItemOrdinal(item: ManifestItem): int {
    item.ordinal
  }

  function CitationOf(source: Loaded): Option<Citation> {
    Some(Citation(Text(source.snapshotId), Text(source.refId), Text(source.revisionId), Text(source.artifact),
      Text("$")))
  }

  function RevisionOf(source: Loaded): Option<Revision> {
    Some(Revision(Text(source.snapshotId), Text(source.revisionId)))
  }

  function IdTexts(sources: seq<Loaded>): seq<Json> {
    seq(|sources|, i requires 0 <= i < |sources| => Text(sources[i].snapshotId))
  }

  function Cited(sources: seq<Loaded>): seq<Option<Citation>> {
    seq(|sources|, i requires 0 <= i < |sources| => CitationOf(sources[i]))
  }

  function Revised(sources: seq<Loaded>): seq<Option<Revision>> {
    seq(|sources|, i requires 0 <= i < |sources| => RevisionOf(sources[i]))
  }

  const BACKGROUND := "background_and_problem"
  const FACTS := "confirmed_facts"
  const DECISIONS := "decisions"
  const ACTIONS := "action_items"
  const QUESTIONS := "open_questions"
  const RISKS := "risks"

  /** The six collected sections, in the order they are collected. */
  datatype Sections = Sections(
    background: seq<string>, facts: seq<string>, decisions: seq<string>, actionItems: seq<string>,
    openQuestions: seq<string>, risks: seq<string>)

  function CollectSections(sources: seq<Loaded>): Outcome<Sections> {
    var background := Collected(sources, (p: Payload) => p.background);
    var facts := Collected(sources, (p: Payload) => p.facts);
    var decisions := Collected(sources, (p: Payload) => p.decisions);
    var actions := Collected(sources, (p: Payload) => p.actionItems);
    var questions := Collected(sources, (p: Payload) => p.openQuestions);
    var risks := Collected(sources, (p: Payload) => p.risks);
    if background.Bad? || facts.Bad? || decisions.Bad? || actions.Bad? || questions.Bad? || risks.Bad? then
      Bad(FixtureInvalid)
    else
      Good(Sections(background.value, facts.value, decisions.value, actions.value, questions.value, risks.value))
  }

  function DraftOf(sources: seq<Loaded>, objective: Json, s: Sections): Draft {
    Draft(
      Text("project_decision_record"), true, Text(TitleOf(sources, objective)), Text("requester_only"), true,
      Some(IdTexts(sources)),
      Some(map[
        BACKGROUND := Entries(s.background), FACTS := Entries(s.facts), DECISIONS := Entries(s.decisions),
        ACTIONS := Entries(s.actionItems), QUESTIONS := Entries(s.openQuestions), RISKS := Entries(s.risks)]),
      Some(Cited(sources)),
      Some(Revised(sources)))
  }

  /** `execute` without a finished checkpoint. */
  function Executed(
    items: seq<ManifestItem>, inputs: set<string>, objective: Json, store: Artifacts, maxSources: nat, maxBytes: int)
    : Outcome<Draft>
  {
    var sources := SourcesOf(items);
    if sources == [] then Bad(SourceMissing)
    else if |sources| > maxSources then Bad(BudgetExceeded)
    else
      var loaded := LoadAll(SortBy(sources, ItemOrdinal), inputs, store, maxBytes);
      if loaded.Bad? then Bad(loaded.failure)
      else
        var sections := CollectSections(loaded.value.0);
        if sections.Bad? then Bad(sections.failure)
        else Good(DraftOf(loaded.value.0, objective, sections.value))
  }

  method Execute(
    items: seq<ManifestItem>, inputs: set<string>, objective: Json, store: Artifacts, maxSources: nat, maxBytes: int)
    returns (r: Outcome<Draft>)
    ensures r == Executed(items, inputs, objective, store, maxSources, maxBytes)
  {
    var sources := SourcesOf(items);
    if sources == [] {
      return Bad(SourceMissing);
    }
    if |sources| > maxSources {
      return Bad(BudgetExceeded);
    }
    var loaded := Load(SortBy(sources, ItemOrdinal), inputs, store, maxBytes);
    if loaded.Bad? {
      return Bad(loaded.failure);
    }
    var all := loaded.value.0;
    var background := Collect(all, (p: Payload) => p.background);
    var facts := Collect(all, (p: Payload) => p.facts);
    var decisions := Collect(all, (p: Payload) => p.decisions);
    var actions := Collect(all, (p: Payload) => p.actionItems);
    var questions := Collect(all, (p: Payload) => p.openQuestions);
    var risks := Collect(all, (p: Payload) => p.risks);
    if background.Bad? || facts.Bad? || decisions.Bad? || actions.Bad? || questions.Bad? || risks.Bad? {
      return Bad(FixtureInvalid);
    }
    var sections := Sections(
      background.value, facts.value, decisions.value, actions.value, questions.value, risks.value);
    return Good(DraftOf(all, objective, sections));
  }

  // =========================================================================== the verifier
  // The independent verifier of decision records, and its exact agreement with the executor.

  /** What the verifier keeps of a context source. */
  datatype Source = Source(refId: Json, revisionId: Json, envelopeId: Json, artifact: Json, allowedUse: Json)

  function SourceOf(item: ManifestItem): Source
    requires item.metadata.Some?
  {
    var m := item.metadata.value;
    Source(m.refId, m.revisionId, m.envelopeId, item.artifact, item.allowedUse)
  }

  /** Items `_context_sources` does not skip. */
  predicate Usable(item: ManifestItem) {
    item.isSource && item.metadata.Some? && Truthy(item.metadata.value.snapshotId)
  }

  function KeyOf(item: ManifestItem): string {
    if item.metadata.Some? then Str(item.metadata.value.snapshotId) else ""
  }

  /** `_context_sources`: a later item with the same id replaces an earlier one. */
  function ContextSources(items: seq<ManifestItem>): map<string, Source> {
    if items == [] then map[]
    else
      var earlier := ContextSources(items[..|items| - 1]);
      var last := items[|items| - 1];
      if Usable(last) then earlier[KeyOf(last) := SourceOf(last)] else earlier
  }

  method ReadContext(items: seq<ManifestItem>) returns (sources: map<string, Source>)
    ensures sources == ContextSources(items)
  {
    sources := map[];
    for i := 0 to |items|
      invariant sources == ContextSources(items[..i])
    {
      assert items[..i + 1][..i] == items[..i];
      if Usable(items[i]) {
        sources := sources[KeyOf(items[i]) := SourceOf(items[i])];
      }
    }
    assert items[..|items|] == items;
  }

  const REQUIRED := [BACKGROUND, FACTS, DECISIONS, ACTIONS, QUESTIONS, RISKS]

  /** `_schema_valid`. */
  predicate SchemaValid(draft: Draft) {
    && draft.artifactType == Text("project_decision_record") && draft.versionIsOne
    && draft.title.Text? && NonBlank(draft.title.text)
    && draft.sections.Some?
    && forall i :: 0 <= i < |REQUIRED| ==>
         REQUIRED[i] in draft.sections.value && draft.sections.value[REQUIRED[i]].Entries?
  }

  function CitedId(citation: Citation): string {
    if Truthy(citation.snapshotId) then Str(citation.snapshotId) else ""
  }

  /** One citation against the context and the artifact store. */
  predicate CitationValid(citation: Option<Citation>, sources: map<string, Source>, store: Artifacts) {
    && citation.Some?
    && CitedId(citation.value) in sources
    && var source := sources[CitedId(citation.value)];
    && citation.value.refId == source.refId && citation.value.revisionId == source.revisionId
    && citation.value.artifact == source.artifact
    && citation.value.artifact.Text? && citation.value.artifact.text in store
    && Truthy(citation.value.pointer)
  }

  /** `_citations_valid`. */
  predicate CitationsValid(citations: seq<Option<Citation>>, sources: map<string, Source>, store: Artifacts) {
    && |citations| == |sources|
    && forall i :: 0 <= i < |citations| ==> CitationValid(citations[i], sources, store)
  }

  method CheckCitations(citations: seq<Option<Citation>>, sources: map<string, Source>, store: Artifacts)
    returns (valid: bool)
    ensures valid <==> CitationsValid(citations, sources, store)
  {
    if |citations| != |sources| {
      return false;
    }
    for i := 0 to |citations|
      invariant forall j :: 0 <= j < i ==> CitationValid(citations[j], sources, store)
    {
      if !CitationValid(citations[i], sources, store) {
        return false;
      }
    }
    return true;
  }

  function Listed<T>(list: Option<seq<T>>): seq<T> {
    if list.Some? then list.value else []
  }

  function RecordIds(draft: Draft): set<Json> {
    set id | id in Listed(draft.sourceIds)
  }

  function CitationIds(citations: seq<Option<Citation>>): set<string> {
    set i | 0 <= i < |citations| && citations[i].Some? && Truthy(citations[i].value.snapshotId)
      :: Str(citations[i].value.snapshotId)
  }

  function Texts(ids: set<string>): set<Json> {
    set id | id in ids :: Text(id)
  }

  predicate EvidenceComplete(draft: Draft, sources: map<string, Source>) {
    && sources != map[]
    && RecordIds(draft) == Texts(sources.Keys)
    && CitationIds(Listed(draft.citations)) == sources.Keys
  }

  /** `_permission_valid`. */
  predicate PermissionValid(sources: map<string, Source>) {
    && sources != map[]
    && forall id :: id in sources ==> AllowedUse(sources[id].allowedUse) && Truthy(sources[id].envelopeId)
  }

  /** The record's revisions by source; a later entry replaces an earlier one. */
  function RecordRevisions(revisions: seq<Option<Revision>>): map<string, string> {
    if revisions == [] then map[]
    else
      var earlier := RecordRevisions(revisions[..|revisions| - 1]);
      var last := revisions[|revisions| - 1];
      if last.Some? && Truthy(last.value.snapshotId) then
        earlier[Str(last.value.snapshotId) := Str(last.value.revisionId)]
      else earlier
  }

  function ExpectedRevisions(sources: map<string, Source>): map<string, string> {
    map id | id in sources :: if Truthy(sources[id].revisionId) then Str(sources[id].revisionId) else ""
  }

  /** `_freshness_valid`. */
  predicate FreshnessValid(draft: Draft, sources: map<string, Source>) {
    && draft.revisions.Some?
    && RecordRevisions(draft.revisions.value) == ExpectedRevisions(sources)
    && forall id :: id in sources ==> ExpectedRevisions(sources)[id] != ""
  }

  predicate HasEntries(sections: map<string, Field>, name: string) {
    name in sections && sections[name].Entries? && sections[name].entries != []
  }

  /** `_actionability_valid`. */
  predicate ActionabilityValid(draft: Draft) {
    && draft.sections.Some?
    && var s := draft.sections.value;
    HasEntries(s, DECISIONS) || HasEntries(s, ACTIONS) || HasEntries(s, QUESTIONS)
  }

  datatype Checks = Checks(
    schema: bool, evidence: bool, citation: bool, permission: bool, sensitivity: bool, freshness: bool,
    actionability: bool)

  predicate AllPass(c: Checks) {
    c.schema && c.evidence && c.citation && c.permission && c.sensitivity && c.freshness && c.actionability
  }

  function ChecksOf(draft: Draft, items: seq<ManifestItem>, store: Artifacts): Checks {
    var sources := ContextSources(items);
    Checks(
      SchemaValid(draft), EvidenceComplete(draft, sources), CitationsValid(Listed(draft.citations), sources, store),
      PermissionValid(sources), draft.audience == Text("requester_only") && draft.publishableIsFalse,
      FreshnessValid(draft, sources), ActionabilityValid(draft))
  }

  /** `verify`: the verdict is PASSED exactly when every check holds. */
  method Verify(draft: Draft, items: seq<ManifestItem>, store: Artifacts) returns (checks: Checks, passed: bool)
    ensures checks == ChecksOf(draft, items, store) && passed == AllPass(checks)
  {
    var sources := ReadContext(items);
    var cited := CheckCitations(Listed(draft.citations), sources, store);
    checks := Checks(
      SchemaValid(draft), EvidenceComplete(draft, sources), cited, PermissionValid(sources),
      draft.audience == Text("requester_only") && draft.publishableIsFalse, FreshnessValid(draft, sources),
      ActionabilityValid(draft));
    passed := AllPass(checks);
  }

  // ---------------------------------------------------------------- PASSED means a bijection

  function IdAt(citations: seq<Option<Citation>>, i: int): string {
    if 0 <= i < |citations| && citations[i].Some? then CitedId(citations[i].value) else ""
  }

  function Ids(citations: seq<Option<Citation>>): seq<string> {
    seq(|citations|, i requires 0 <= i < |citations| => IdAt(citations, i))
  }

  function Elements(ids: seq<string>): set<string> {
    set id | id in ids
  }

  lemma {:induction false} ElementsAtMost(ids: seq<string>)
    ensures |Elements(ids)| <= |ids|
    decreases |ids|
  {
    if ids == [] {
      assert Elements(ids) == {};
    } else {
      var n := |ids| - 1;
      ElementsAtMost(ids[..n]);
      assert Elements(ids) == Elements(ids[..n]) + {ids[n]};
    }
  }

  lemma EveryoneCited(citations: seq<Option<Citation>>, sources: map<string, Source>, id: string)
    requires CitationIds(citations) == sources.Keys && id in sources
    ensures exists i :: 0 <= i < |citations| && IdAt(citations, i) == id
  {
    assert id in CitationIds(citations);
    var i :| 0 <= i < |citations| && citations[i].Some? && Truthy(citations[i].value.snapshotId)
      && Str(citations[i].value.snapshotId) == id;
    assert IdAt(citations, i) == id;
  }

  lemma IdsAreSources(citations: seq<Option<Citation>>, sources: map<string, Source>, store: Artifacts)
    requires CitationsValid(citations, sources, store) && CitationIds(citations) == sources.Keys
    ensures Elements(Ids(citations)) == sources.Keys
  {
    var ids := Ids(citations);
    forall id | id in sources.Keys
      ensures id in Elements(ids)
    {
      EveryoneCited(citations, sources, id);
      var i :| 0 <= i < |citations| && IdAt(citations, i) == id;
      assert ids[i] == id;
    }
    forall id | id in Elements(ids)
      ensures id in sources.Keys
    {
      var i :| 0 <= i < |ids| && ids[i] == id;
      assert CitationValid(citations[i], sources, store);
    }
  }

  /** PASSED pairs citations and context sources one to one, with matching reference, revision and
      stored artifact. */
  lemma PassedIsBijection(draft: Draft, items: seq<ManifestItem>, store: Artifacts)
    requires AllPass(ChecksOf(draft, items, store))
    ensures var sources, citations := ContextSources(items), Listed(draft.citations);
      && (forall i :: 0 <= i < |citations| ==> CitationValid(citations[i], sources, store))
      && (forall i, j :: 0 <= i < j < |citations| ==> IdAt(citations, i) != IdAt(citations, j))
      && (forall id :: id in sources ==> exists i :: 0 <= i < |citations| && IdAt(citations, i) == id)
  {
    hide SchemaValid, FreshnessValid, ActionabilityValid, PermissionValid, CitationValid, ContextSources,
      CitationIds, RecordIds, IdAt;
    var sources, citations := ContextSources(items), Listed(draft.citations);
    IdsAreSources(citations, sources, store);
    forall id | id in sources
      ensures exists i :: 0 <= i < |citations| && IdAt(citations, i) == id
    {
      EveryoneCited(citations, sources, id);
    }
    forall i, j | 0 <= i < j < |citations|
      ensures IdAt(citations, i) != IdAt(citations, j)
    {
      if Ids(citations)[i] == Ids(citations)[j] {
        var rest := Ids(citations)[..j] + Ids(citations)[j + 1..];
        assert forall k :: 0 <= k < |Ids(citations)| ==>
          Ids(citations)[k] == (if k < j then rest[k] else if k == j then rest[i] else rest[k - 1]);
        assert Elements(Ids(citations)) == Elements(rest);
        ElementsAtMost(rest);
      }
    }
  }

  lemma SameSize(ids: set<string>, sources: map<string, Source>)
    requires ids == sources.Keys
    ensures |ids| == |sources|
  {
  }

  // ---------------------------------------------------------------- executor and verifier agree

  /** `str()` of a value that is no string is never empty. */
  predicate Printable(value: Json) {
    value.Other? ==> value.repr != ""
  }

  predicate PrintableItem(item: ManifestItem) {
    item.metadata.Some? ==>
      && Printable(item.metadata.value.snapshotId) && Printable(item.metadata.value.refId)
      && Printable(item.metadata.value.revisionId)
  }

  /** The manifest's sources have different ids. */
  ghost predicate DistinctSources(items: seq<ManifestItem>) {
    forall i, j :: 0 <= i < j < |items| && Usable(items[i]) && Usable(items[j]) ==> KeyOf(items[i]) != KeyOf(items[j])
  }

  /** The executor writes `str()` of reference and revision ids; the verifier compares with the values
      themselves, so only string ids survive the comparison. */
  predicate StringIds(item: ManifestItem) {
    && item.metadata.Some? && item.metadata.value.refId.Text? && item.metadata.value.revisionId.Text?
  }

  /** What loading a source establishes. */
  predicate LoadedFrom(item: ManifestItem, source: Loaded, store: Artifacts) {
    && item.metadata.Some? && Complete(item.metadata.value) && AllowedUse(item.allowedUse)
    && item.artifact == Text(source.artifact) && source.artifact in store
    && store[source.artifact].payload == Some(source.payload)
    && source.snapshotId == Str(item.metadata.value.snapshotId)
    && source.refId == Str(item.metadata.value.refId) && source.revisionId == Str(item.metadata.value.revisionId)
  }

  lemma {:induction false} LoadedItems(items: seq<ManifestItem>, inputs: set<string>, store: Artifacts, limit: int)
    requires LoadAll(items, inputs, store, limit).Good?
    ensures var sources := LoadAll(items, inputs, store, limit).value.0;
      && |sources| == |items|
      && forall i :: 0 <= i < |items| ==> LoadedFrom(items[i], sources[i], store)
    decreases |items|
  {
    if items != [] {
      LoadedItems(items[..|items| - 1], inputs, store, limit);
    }
  }

  lemma {:induction false} SourcesAreItems(items: seq<ManifestItem>, item: ManifestItem)
    ensures item in SourcesOf(items) <==> item in items && item.isSource
    decreases |items|
  {
    if items != [] {
      var n := |items| - 1;
      SourcesAreItems(items[..n], item);
      assert items == items[..n] + [items[n]];
    }
  }

  /** The context holds exactly the usable items, each under its own id. */
  lemma {:induction false} ContextHas(items: seq<ManifestItem>, item: ManifestItem)
    requires DistinctSources(items) && item in items && Usable(item)
    ensures KeyOf(item) in ContextSources(items) && ContextSources(items)[KeyOf(item)] == SourceOf(item)
    decreases |items|
  {
    var n := |items| - 1;
    if items[n] == item {
    } else {
      assert item in items[..n];
      ContextHas(items[..n], item);
      var k :| 0 <= k < n && items[k] == item;
      assert Usable(items[n]) ==> KeyOf(items[k]) != KeyOf(items[n]);
    }
  }

  lemma {:induction false} ContextOnly(items: seq<ManifestItem>, id: string)
    requires id in ContextSources(items)
    ensures exists i :: 0 <= i < |items| && Usable(items[i]) && KeyOf(items[i]) == id
    decreases |items|
  {
    var n := |items| - 1;
    if Usable(items[n]) && KeyOf(items[n]) == id {
    } else {
      ContextOnly(items[..n], id);
      var i :| 0 <= i < n && Usable(items[..n][i]) && KeyOf(items[..n][i]) == id;
      assert Usable(items[i]) && KeyOf(items[i]) == id;
    }
  }

  // =========================================================================== producer and verifier
  // Exactly when the verifier passes a record the executor wrote from the same manifest.

  /** The id an item's source is known by. */
  function SourceKey(item: ManifestItem): string {
    if item.metadata.Some? then KeyOf(item) else ""
  }

  /** The executor's loaded sources and the manifest they were loaded from, in loading order. */
  ghost predicate Matched(items: seq<ManifestItem>, sorted: seq<ManifestItem>, loaded: seq<Loaded>, store: Artifacts) {
    && sorted != [] && |loaded| == |sorted|
    && (forall i :: 0 <= i < |sorted| ==> LoadedFrom(sorted[i], loaded[i], store) && PrintableItem(sorted[i]))
    && (forall item :: item in sorted <==> item in items && item.isSource)
    && multiset(sorted) == multiset(SourcesOf(items))
    && DistinctBy(sorted, SourceKey)
    && DistinctSources(items)
  }

  lemma {:induction false} DistinctFiltered(items: seq<ManifestItem>)
    requires DistinctSources(items)
    requires forall item :: item in items && item.isSource ==> Usable(item)
    ensures DistinctBy(SourcesOf(items), SourceKey)
    decreases |items|
  {
    if items != [] {
      var n := |items| - 1;
      DistinctFiltered(items[..n]);
      var src := SourcesOf(items[..n]);
      if items[n].isSource {
        forall i | 0 <= i < |src|
          ensures SourceKey(src[i]) != SourceKey(items[n])
        {
          assert src[i] in src;
          SourcesAreItems(items[..n], src[i]);
          var k :| 0 <= k < n && items[k] == src[i];
          assert Usable(items[k]) && Usable(items[n]);
        }
      }
    }
  }

  lemma SameMembers(a: seq<ManifestItem>, b: seq<ManifestItem>, item: ManifestItem)
    requires multiset(a) == multiset(b)
    ensures item in a <==> item in b
  {
    assert item in a <==> item in multiset(a);
    assert item in b <==> item in multiset(b);
  }

  /** A successful execution loads every source; over distinct sources it is matched. */
  lemma ExecutionMatches(
    items: seq<ManifestItem>, inputs: set<string>, objective: Json, store: Artifacts, maxSources: nat, maxBytes: int)
    returns (sorted: seq<ManifestItem>, loaded: seq<Loaded>, sections: Sections)
    requires Executed(items, inputs, objective, store, maxSources, maxBytes).Good?
    requires forall item :: item in items ==> PrintableItem(item)
    ensures DistinctSources(items) ==> Matched(items, sorted, loaded, store)
    ensures |loaded| == |SourcesOf(items)| && forall item :: item in items && item.isSource ==> Usable(item)
    ensures CollectSections(loaded) == Good(sections)
    ensures Executed(items, inputs, objective, store, maxSources, maxBytes).value
         == DraftOf(loaded, objective, sections)
  {
    hide DraftOf, CollectSections, LoadAll, SortBy, LoadedFrom;
    var src := SourcesOf(items);
    sorted := SortBy(src, ItemOrdinal);
    loaded := LoadAll(sorted, inputs, store, maxBytes).value.0;
    sections := CollectSections(loaded).value;
    SortIsSort(src, ItemOrdinal);
    LoadedItems(sorted, inputs, store, maxBytes);
    forall item
      ensures item in sorted <==> item in items && item.isSource
    {
      SameMembers(sorted, src, item);
      SourcesAreItems(items, item);
    }
    SameLength(sorted, src);
    forall item | item in items && item.isSource
      ensures Usable(item)
    {
      assert item in sorted;
      var i :| 0 <= i < |sorted| && sorted[i] == item;
      LoadedUsable(sorted[i], loaded[i], store);
    }
    if DistinctSources(items) {
      DistinctFiltered(items);
      DistinctAcross(src, sorted, SourceKey);
    }
  }

  lemma LoadedUsable(item: ManifestItem, source: Loaded, store: Artifacts)
    requires LoadedFrom(item, source, store)
    ensures item.isSource ==> Usable(item)
    ensures item.metadata.Some? && SourceKey(item) == source.snapshotId
  {
  }

  // ---------------------------------------------------------------- the context the verifier builds

  lemma ContextOf(items: seq<ManifestItem>, sorted: seq<ManifestItem>, loaded: seq<Loaded>, store: Artifacts, i: nat)
    requires Matched(items, sorted, loaded, store) && i < |sorted|
    ensures sorted[i].metadata.Some? && loaded[i].snapshotId in ContextSources(items)
    ensures ContextSources(items)[loaded[i].snapshotId] == SourceOf(sorted[i])
  {
    hide DistinctBy;
    assert sorted[i] in sorted;
    LoadedUsable(sorted[i], loaded[i], store);
    ContextHas(items, sorted[i]);
  }

  lemma ContextFrom(items: seq<ManifestItem>, sorted: seq<ManifestItem>, loaded: seq<Loaded>, store: Artifacts,
      id: string)
    requires Matched(items, sorted, loaded, store) && id in ContextSources(items)
    ensures exists i :: 0 <= i < |loaded| && loaded[i].snapshotId == id
  {
    ContextOnly(items, id);
    var k :| 0 <= k < |items| && Usable(items[k]) && KeyOf(items[k]) == id;
    assert items[k] in sorted;
    var i :| 0 <= i < |sorted| && sorted[i] == items[k];
    LoadedUsable(sorted[i], loaded[i], store);
    assert loaded[i].snapshotId == id;
  }

  function LoadedIds(loaded: seq<Loaded>): seq<string> {
    seq(|loaded|, i requires 0 <= i < |loaded| => loaded[i].snapshotId)
  }

  lemma {:induction false} DistinctCount(ids: seq<string>)
    requires forall i, j :: 0 <= i < j < |ids| ==> ids[i] != ids[j]
    ensures |Elements(ids)| == |ids|
    decreases |ids|
  {
    if ids == [] {
      assert Elements(ids) == {};
    } else {
      var n := |ids| - 1;
      DistinctCount(ids[..n]);
      assert Elements(ids) == Elements(ids[..n]) + {ids[n]};
    }
  }

  /** The context has one source per loaded source. */
  lemma ContextSize(items: seq<ManifestItem>, sorted: seq<ManifestItem>, loaded: seq<Loaded>, store: Artifacts)
    requires Matched(items, sorted, loaded, store)
    ensures |ContextSources(items)| == |loaded| && ContextSources(items).Keys == Elements(LoadedIds(loaded))
  {
    hide LoadedFrom, ContextSources;
    var ids, sources := LoadedIds(loaded), ContextSources(items);
    forall i, j | 0 <= i < j < |ids|
      ensures ids[i] != ids[j]
    {
      LoadedUsable(sorted[i], loaded[i], store);
      LoadedUsable(sorted[j], loaded[j], store);
    }
    DistinctCount(ids);
    forall id | id in sources.Keys
      ensures id in Elements(ids)
    {
      ContextFrom(items, sorted, loaded, store, id);
      var i :| 0 <= i < |loaded| && loaded[i].snapshotId == id;
      assert ids[i] == id;
    }
    forall id | id in Elements(ids)
      ensures id in sources.Keys
    {
      var i :| 0 <= i < |ids| && ids[i] == id;
      ContextOf(items, sorted, loaded, store, i);
    }
    SameSize(Elements(ids), sources);
  }

  // ---------------------------------------------------------------- check by check

  lemma EvidenceAgrees(
    items: seq<ManifestItem>, sorted: seq<ManifestItem>, loaded: seq<Loaded>, store: Artifacts, draft: Draft)
    requires Matched(items, sorted, loaded, store)
    requires draft.sourceIds == Some(IdTexts(loaded))
    requires draft.citations == Some(Cited(loaded))
    ensures EvidenceComplete(draft, ContextSources(items))
  {
    hide ContextSources, Cited, CitationIds, DistinctSources;
    ContextSize(items, sorted, loaded, store);
    ContextOf(items, sorted, loaded, store, 0);
    forall i | 0 <= i < |loaded|
      ensures loaded[i].snapshotId != ""
    {
    }
    assert RecordIds(draft) == Texts(Elements(LoadedIds(loaded))) by {
      var ids, texts := LoadedIds(loaded), draft.sourceIds.value;
      forall j | j in RecordIds(draft)
        ensures j in Texts(Elements(ids))
      {
        var i :| 0 <= i < |texts| && texts[i] == j;
        assert ids[i] in Elements(ids);
      }
      forall j | j in Texts(Elements(ids))
        ensures j in RecordIds(draft)
      {
        var i :| 0 <= i < |ids| && Text(ids[i]) == j;
        assert texts[i] == j;
      }
    }
    CitationIdsAre(draft.citations.value, loaded);
  }

  lemma CitationIdsAre(citations: seq<Option<Citation>>, loaded: seq<Loaded>)
    requires citations == Cited(loaded)
    requires forall i :: 0 <= i < |loaded| ==> loaded[i].snapshotId != ""
    ensures CitationIds(citations) == Elements(LoadedIds(loaded))
  {
    var ids := LoadedIds(loaded);
    forall id | id in Elements(ids)
      ensures id in CitationIds(citations)
    {
      var i :| 0 <= i < |ids| && ids[i] == id;
      assert citations[i] == CitationOf(loaded[i]);
    }
    forall id | id in CitationIds(citations)
      ensures id in Elements(ids)
    {
      var i :| 0 <= i < |citations| && citations[i].Some? && Truthy(citations[i].value.snapshotId)
        && Str(citations[i].value.snapshotId) == id;
      assert ids[i] == id;
    }
  }

  lemma CitationsAgree(
    items: seq<ManifestItem>, sorted: seq<ManifestItem>, loaded: seq<Loaded>, store: Artifacts,
    citations: seq<Option<Citation>>)
    requires Matched(items, sorted, loaded, store)
    requires citations == Cited(loaded)
    ensures forall item :: item in sorted ==> item.metadata.Some?
    ensures CitationsValid(citations, ContextSources(items), store)
      <==> forall item :: item in sorted ==> StringIds(item)
  {
    hide ContextSources;
    ContextSize(items, sorted, loaded, store);
    forall i | 0 <= i < |sorted|
      ensures sorted[i].metadata.Some?
      ensures CitationValid(citations[i], ContextSources(items), store) <==> StringIds(sorted[i])
    {
      ContextOf(items, sorted, loaded, store, i);
      assert LoadedFrom(sorted[i], loaded[i], store);
    }
    forall item | item in sorted
      ensures item.metadata.Some?
    {
      var i :| 0 <= i < |sorted| && sorted[i] == item;
    }
    if forall item :: item in sorted ==> StringIds(item) {
      forall i | 0 <= i < |citations|
        ensures CitationValid(citations[i], ContextSources(items), store)
      {
        assert sorted[i] in sorted;
      }
    } else {
      var item :| item in sorted && !StringIds(item);
      var i :| 0 <= i < |sorted| && sorted[i] == item;
      assert !CitationValid(citations[i], ContextSources(items), store);
    }
  }

  /** The revisions the record lists, read back. */
  lemma {:induction false} RevisionsRead(loaded: seq<Loaded>)
    requires forall i :: 0 <= i < |loaded| ==> loaded[i].snapshotId != ""
    requires forall i, j :: 0 <= i < j < |loaded| ==> loaded[i].snapshotId != loaded[j].snapshotId
    ensures var read := RecordRevisions(Revised(loaded));
      && (forall i :: 0 <= i < |loaded| ==>
            loaded[i].snapshotId in read && read[loaded[i].snapshotId] == loaded[i].revisionId)
      && (forall id :: id in read ==> exists i :: 0 <= i < |loaded| && loaded[i].snapshotId == id)
    decreases |loaded|
  {
    if loaded != [] {
      var n := |loaded| - 1;
      assert Revised(loaded)[..n] == Revised(loaded[..n]);
      RevisionsRead(loaded[..n]);
      ReadOneMore(loaded, RecordRevisions(Revised(loaded[..n])), RecordRevisions(Revised(loaded)));
    }
  }

  lemma ReadOneMore(loaded: seq<Loaded>, earlier: map<string, string>, read: map<string, string>)
    requires loaded != [] && read == earlier[loaded[|loaded| - 1].snapshotId := loaded[|loaded| - 1].revisionId]
    requires forall i, j :: 0 <= i < j < |loaded| ==> loaded[i].snapshotId != loaded[j].snapshotId
    requires var prefix := loaded[..|loaded| - 1];
      && (forall i :: 0 <= i < |prefix| ==>
            prefix[i].snapshotId in earlier && earlier[prefix[i].snapshotId] == prefix[i].revisionId)
      && (forall id :: id in earlier ==> exists i :: 0 <= i < |prefix| && prefix[i].snapshotId == id)
    ensures forall i :: 0 <= i < |loaded| ==>
      loaded[i].snapshotId in read && read[loaded[i].snapshotId] == loaded[i].revisionId
    ensures forall id :: id in read ==> exists i :: 0 <= i < |loaded| && loaded[i].snapshotId == id
  {
    var n := |loaded| - 1;
    forall i | 0 <= i < |loaded|
      ensures loaded[i].snapshotId in read && read[loaded[i].snapshotId] == loaded[i].revisionId
    {
      assert i < n ==> loaded[..n][i] == loaded[i];
    }
    forall id | id in read
      ensures exists i :: 0 <= i < |loaded| && loaded[i].snapshotId == id
    {
      if id == loaded[n].snapshotId {
      } else {
        var i :| 0 <= i < n && loaded[..n][i].snapshotId == id;
        assert loaded[i].snapshotId == id;
      }
    }
  }

  lemma DistinctIds(items: seq<ManifestItem>, sorted: seq<ManifestItem>, loaded: seq<Loaded>, store: Artifacts)
    requires Matched(items, sorted, loaded, store)
    ensures forall i :: 0 <= i < |loaded| ==> loaded[i].snapshotId != ""
    ensures forall i, j :: 0 <= i < j < |loaded| ==> loaded[i].snapshotId != loaded[j].snapshotId
  {
    forall i | 0 <= i < |loaded|
      ensures loaded[i].snapshotId != ""
    {
      assert loaded[i].snapshotId != "" && loaded[i].revisionId != "";
    }
    forall i, j | 0 <= i < j < |loaded|
      ensures loaded[i].snapshotId != loaded[j].snapshotId
    {
      LoadedUsable(sorted[i], loaded[i], store);
      LoadedUsable(sorted[j], loaded[j], store);
    }
  }

  lemma ExpectedFor(
    items: seq<ManifestItem>, sorted: seq<ManifestItem>, loaded: seq<Loaded>, store: Artifacts, i: nat)
    requires Matched(items, sorted, loaded, store) && i < |loaded|
    ensures var sources := ContextSources(items);
      && loaded[i].snapshotId in sources
      && ExpectedRevisions(sources)[loaded[i].snapshotId] == loaded[i].revisionId != ""
  {
    hide ContextSources;
    ContextOf(items, sorted, loaded, store, i);
    var revision := SourceOf(sorted[i]).revisionId;
    assert Truthy(revision) && Str(revision) == loaded[i].revisionId;
  }

  lemma FreshnessAgrees(
    items: seq<ManifestItem>, sorted: seq<ManifestItem>, loaded: seq<Loaded>, store: Artifacts, draft: Draft)
    requires Matched(items, sorted, loaded, store)
    requires draft.revisions == Some(Revised(loaded))
    ensures FreshnessValid(draft, ContextSources(items))
  {
    hide ContextSources, LoadedFrom, RecordRevisions, Matched, Revised;
    var sources := ContextSources(items);
    var read := RecordRevisions(Revised(loaded));
    DistinctIds(items, sorted, loaded, store);
    RevisionsRead(loaded);
    forall id | id in sources
      ensures id in read && ExpectedRevisions(sources)[id] == read[id] != ""
    {
      ContextFrom(items, sorted, loaded, store, id);
      var i :| 0 <= i < |loaded| && loaded[i].snapshotId == id;
      ExpectedFor(items, sorted, loaded, store, i);
    }
    forall id | id in read
      ensures id in sources
    {
      var i :| 0 <= i < |loaded| && loaded[i].snapshotId == id;
      ExpectedFor(items, sorted, loaded, store, i);
    }
    assert read == ExpectedRevisions(sources);
  }

  lemma ActionabilityAgrees(loaded: seq<Loaded>, objective: Json, sections: Sections)
    ensures ActionabilityValid(DraftOf(loaded, objective, sections))
      <==> sections.decisions != [] || sections.actionItems != [] || sections.openQuestions != []
  {
    hide TitleOf;
  }

  // ---------------------------------------------------------------- what the inputs decide

  /** The fixture a source points at. */
  function FixtureOf(item: ManifestItem, store: Artifacts): Option<Payload> {
    if item.artifact.Text? && item.artifact.text in store then store[item.artifact.text].payload else None
  }

  /** The title a manifest leads to: a single source's own, else the objective, else the default. */
  function ChosenTitle(items: seq<ManifestItem>, objective: Json, store: Artifacts): string {
    var sources := SourcesOf(items);
    var own := if |sources| == 1 then FixtureOf(sources[0], store) else None;
    if own.Some? && Truthy(own.value.title) then Str(own.value.title)
    else if Truthy(objective) then Str(objective)
    else "Project Decision Record"
  }

  predicate HasSome(field: Field) {
    field.Entries? && field.entries != []
  }

  /** The source's fixture has a decision, an action item or an open question. */
  predicate CallsForAction(item: ManifestItem, store: Artifacts) {
    var fixture := FixtureOf(item, store);
    && item.isSource && fixture.Some?
    && (HasSome(fixture.value.decisions) || HasSome(fixture.value.actionItems) || HasSome(fixture.value.openQuestions))
  }

  lemma OneItem(a: seq<ManifestItem>, b: seq<ManifestItem>)
    requires multiset(a) == multiset(b) && |a| == 1 && |b| == 1
    ensures a == b
  {
    assert a == [a[0]] && b == [b[0]];
    assert a[0] in multiset(b);
  }

  /** A section is empty exactly when no source has an entry for it. */
  lemma {:induction false} CollectedSome(sources: seq<Loaded>, field: Payload -> Field)
    requires Collected(sources, field).Good?
    ensures Collected(sources, field).value != [] <==>
      exists i :: 0 <= i < |sources| && HasSome(field(sources[i].payload))
    decreases |sources|
  {
    if sources != [] {
      var n := |sources| - 1;
      CollectedSome(sources[..n], field);
      assert forall i :: 0 <= i < n ==> sources[..n][i] == sources[i];
    }
  }

  predicate Urges(p: Payload) {
    HasSome(p.decisions) || HasSome(p.actionItems) || HasSome(p.openQuestions)
  }

  lemma SectionsUrge(loaded: seq<Loaded>, sections: Sections)
    requires CollectSections(loaded) == Good(sections)
    ensures sections.decisions != [] || sections.actionItems != [] || sections.openQuestions != [] <==>
      exists i :: 0 <= i < |loaded| && Urges(loaded[i].payload)
  {
    hide Collected, HasSome;
    CollectedSome(loaded, (p: Payload) => p.decisions);
    CollectedSome(loaded, (p: Payload) => p.actionItems);
    CollectedSome(loaded, (p: Payload) => p.openQuestions);
  }

  lemma ActionAgrees(
    items: seq<ManifestItem>, sorted: seq<ManifestItem>, loaded: seq<Loaded>, store: Artifacts, objective: Json,
    sections: Sections)
    requires Matched(items, sorted, loaded, store) && CollectSections(loaded) == Good(sections)
    ensures ActionabilityValid(DraftOf(loaded, objective, sections)) <==>
      exists item :: item in items && CallsForAction(item, store)
  {
    hide CollectSections, ActionabilityValid, DraftOf, DistinctBy, DistinctSources, PrintableItem, HasSome;
    ActionabilityAgrees(loaded, objective, sections);
    SectionsUrge(loaded, sections);
    if i :| 0 <= i < |loaded| && Urges(loaded[i].payload) {
      assert LoadedFrom(sorted[i], loaded[i], store) && sorted[i] in sorted;
      assert CallsForAction(sorted[i], store);
    }
    if item :| item in items && CallsForAction(item, store) {
      assert item in sorted;
      var i :| 0 <= i < |sorted| && sorted[i] == item;
      assert LoadedFrom(sorted[i], loaded[i], store) && Urges(loaded[i].payload);
    }
  }

  lemma TitleIsChosen(
    items: seq<ManifestItem>, sorted: seq<ManifestItem>, loaded: seq<Loaded>, store: Artifacts, objective: Json)
    requires multiset(sorted) == multiset(SourcesOf(items)) && LoadedAs(sorted, loaded, store)
    ensures TitleOf(loaded, objective) == ChosenTitle(items, objective, store)
  {
    SameLength(sorted, SourcesOf(items));
    if |sorted| == 1 {
      OneItem(sorted, SourcesOf(items));
      assert LoadedFrom(sorted[0], loaded[0], store);
    }
  }

  lemma PassedWhenDistinct(
    items: seq<ManifestItem>, objective: Json, store: Artifacts, sorted: seq<ManifestItem>, loaded: seq<Loaded>,
    sections: Sections)
    requires Matched(items, sorted, loaded, store) && CollectSections(loaded) == Good(sections)
    requires forall item :: item in items && item.isSource ==> item.metadata.Some?
    ensures AllPass(ChecksOf(DraftOf(loaded, objective, sections), items, store)) <==>
      && NonBlank(ChosenTitle(items, objective, store))
      && (exists item :: item in items && CallsForAction(item, store))
      && forall item :: item in items && item.isSource ==> StringIds(item)
  {
    hide ContextSources, EvidenceComplete, CitationsValid, FreshnessValid, ActionabilityValid, NonBlank, StringIds,
      CallsForAction, CollectSections;
    var draft := DraftOf(loaded, objective, sections);
    assert SchemaValid(DraftOf(loaded, objective, sections)) <==> NonBlank(TitleOf(loaded, objective)) by {
      var draft := DraftOf(loaded, objective, sections);
      forall i | 0 <= i < |REQUIRED|
        ensures REQUIRED[i] in draft.sections.value && draft.sections.value[REQUIRED[i]].Entries?
      {
        assert i == 0 || i == 1 || i == 2 || i == 3 || i == 4 || i == 5;
      }
    }
    EvidenceAgrees(items, sorted, loaded, store, draft);
    CitationsAgree(items, sorted, loaded, store, draft.citations.value);
    assert PermissionValid(ContextSources(items)) by {
      var sources := ContextSources(items);
      ContextOf(items, sorted, loaded, store, 0);
      forall id | id in sources
        ensures AllowedUse(sources[id].allowedUse) && Truthy(sources[id].envelopeId)
      {
        ContextFrom(items, sorted, loaded, store, id);
        var i :| 0 <= i < |loaded| && loaded[i].snapshotId == id;
        ContextOf(items, sorted, loaded, store, i);
        assert LoadedFrom(sorted[i], loaded[i], store);
      }
    }
    FreshnessAgrees(items, sorted, loaded, store, draft);
    assert forall item :: item in sorted <==> item in items && item.isSource;
    TitleIsChosen(items, sorted, loaded, store, objective);
    ActionAgrees(items, sorted, loaded, store, objective, sections);
  }

  /** Each usable source has its entry, and two under one id share one. */
  lemma {:induction false} ContextFits(items: seq<ManifestItem>)
    requires forall item :: item in items && item.isSource ==> Usable(item)
    ensures forall item :: item in items && item.isSource ==> SourceKey(item) in ContextSources(items)
    ensures |ContextSources(items)| <= |SourcesOf(items)|
    ensures |ContextSources(items)| == |SourcesOf(items)| ==> DistinctSources(items)
    decreases |items|
  {
    if items != [] {
      var n := |items| - 1;
      assert items == items[..n] + [items[n]];
      ContextFits(items[..n]);
      if |ContextSources(items)| == |SourcesOf(items)| {
        forall i, j | 0 <= i < j < |items| && Usable(items[i]) && Usable(items[j])
          ensures KeyOf(items[i]) != KeyOf(items[j])
        {
          assert items[i] in items[..n];
          if j < n {
            assert items[..n][i] == items[i] && items[..n][j] == items[j];
          }
        }
      }
    }
  }

  /** The verifier passes the executor's own record exactly when the sources have different ids, the
      manifest's title is not blank, some source's fixture has a decision, an action item or an open
      question, and every source's reference and revision ids are strings. */
  lemma PassedIff(
    items: seq<ManifestItem>, inputs: set<string>, objective: Json, store: Artifacts, maxSources: nat, maxBytes: int)
    requires Executed(items, inputs, objective, store, maxSources, maxBytes).Good?
    requires forall item :: item in items ==> PrintableItem(item)
    ensures forall item :: item in items && item.isSource ==> item.metadata.Some?
    ensures var draft := Executed(items, inputs, objective, store, maxSources, maxBytes).value;
      AllPass(ChecksOf(draft, items, store)) <==>
        && DistinctSources(items)
        && NonBlank(ChosenTitle(items, objective, store))
        && (exists item :: item in items && CallsForAction(item, store))
        && forall item :: item in items && item.isSource ==> StringIds(item)
  {
    hide Executed, CollectSections, SchemaValid, EvidenceComplete, PermissionValid, FreshnessValid, ActionabilityValid,
      NonBlank, StringIds, CallsForAction, CitationValid, TitleOf, Matched, DistinctSources, Revised, IdTexts,
      ChosenTitle;
    var sorted, loaded, sections := ExecutionMatches(items, inputs, objective, store, maxSources, maxBytes);
    if DistinctSources(items) {
      PassedWhenDistinct(items, objective, store, sorted, loaded, sections);
    } else {
      ContextFits(items);
    }
  }

  // ---------------------------------------------------------------- what PASSED admits

  /** The record states the source's revision. */
  ghost predicate StatesRevision(revisions: seq<Option<Revision>>, id: string, revision: string) {
    exists i :: 0 <= i < |revisions| && revisions[i].Some? && Truthy(revisions[i].value.snapshotId)
      && Str(revisions[i].value.snapshotId) == id && Str(revisions[i].value.revisionId) == revision
  }

  lemma {:induction false} RevisionStated(revisions: seq<Option<Revision>>, id: string)
    requires id in RecordRevisions(revisions)
    ensures StatesRevision(revisions, id, RecordRevisions(revisions)[id])
    decreases |revisions|
  {
    var n := |revisions| - 1;
    var last := revisions[n];
    if last.Some? && Truthy(last.value.snapshotId) && Str(last.value.snapshotId) == id {
    } else {
      RevisionStated(revisions[..n], id);
      var i :| 0 <= i < n && revisions[..n][i].Some? && Truthy(revisions[..n][i].value.snapshotId)
        && Str(revisions[..n][i].value.snapshotId) == id
        && Str(revisions[..n][i].value.revisionId) == RecordRevisions(revisions)[id];
      assert revisions[i] == revisions[..n][i];
    }
  }

  /** A source that may be used for an artifact, under an access envelope, at the revision the record states. */
  ghost predicate Admitted(draft: Draft, item: ManifestItem) {
    && item.metadata.Some? && (item.allowedUse == Text("direct") || item.allowedUse == Text("artifact_only"))
    && Truthy(item.metadata.value.envelopeId) && Truthy(item.metadata.value.revisionId)
    && StatesRevision(Listed(draft.revisions), Str(item.metadata.value.snapshotId), Str(item.metadata.value.revisionId))
  }

  /** A usable item that no later one replaces. */
  ghost predicate InForce(items: seq<ManifestItem>, i: int) {
    && 0 <= i < |items| && Usable(items[i])
    && forall j :: i < j < |items| && Usable(items[j]) ==> KeyOf(items[j]) != KeyOf(items[i])
  }

  lemma {:induction false} ContextLast(items: seq<ManifestItem>, i: int)
    requires InForce(items, i)
    ensures KeyOf(items[i]) in ContextSources(items) && ContextSources(items)[KeyOf(items[i])] == SourceOf(items[i])
    decreases |items|
  {
    var n := |items| - 1;
    if i < n {
      ContextLast(items[..n], i);
    }
  }

  /** The verifier keeps the last usable item under an id. */
  lemma {:induction false} LastInForce(items: seq<ManifestItem>, id: string) returns (i: int)
    requires id in ContextSources(items)
    ensures InForce(items, i) && KeyOf(items[i]) == id
    decreases |items|
  {
    var n := |items| - 1;
    if Usable(items[n]) && KeyOf(items[n]) == id {
      i := n;
    } else {
      i := LastInForce(items[..n], id);
    }
  }

  /** A record that passes is for its requester only, has a title, its sections and something to act on, and every
      source in force is admitted. */
  lemma PassedAdmits(draft: Draft, items: seq<ManifestItem>, store: Artifacts)
    requires AllPass(ChecksOf(draft, items, store))
    ensures draft.artifactType == Text("project_decision_record") && draft.versionIsOne
    ensures draft.audience == Text("requester_only") && draft.publishableIsFalse
    ensures draft.title.Text? && NonBlank(draft.title.text)
    ensures draft.sections.Some? && exists name, entries: seq<string> ::
      && name in {"decisions", "action_items", "open_questions"} && entries != []
      && name in draft.sections.value && draft.sections.value[name] == Entries(entries)
    ensures (exists i :: InForce(items, i)) && forall i :: InForce(items, i) ==> Admitted(draft, items[i])
  {
    hide NonBlank, EvidenceComplete, CitationsValid, ContextSources, RecordRevisions;
    var sources := ContextSources(items);
    assert exists name, entries: seq<string> ::
      && name in {"decisions", "action_items", "open_questions"} && entries != []
      && name in draft.sections.value && draft.sections.value[name] == Entries(entries) by {
      var s := draft.sections.value;
      var name := if HasEntries(s, DECISIONS) then DECISIONS else if HasEntries(s, ACTIONS) then ACTIONS else QUESTIONS;
      assert s[name] == Entries(s[name].entries) && s[name].entries != [];
    }
    assert exists id :: id in sources;
    var id :| id in sources;
    var last := LastInForce(items, id);
    forall i | InForce(items, i)
      ensures Admitted(draft, items[i])
    {
      ContextLast(items, i);
      assert KeyOf(items[i]) in RecordRevisions(draft.revisions.value);
      RevisionStated(draft.revisions.value, KeyOf(items[i]));
    }
  }

  // ---------------------------------------------------------------- what the record holds

  function EntriesOf(field: Field): seq<string> {
    if field.Entries? then field.entries else []
  }

  /** The entries of one section of the sources' fixtures, source after source. */
  function Gathered(sources: seq<ManifestItem>, store: Artifacts, field: Payload -> Field): seq<string> {
    if sources == [] then []
    else
      var fixture := FixtureOf(sources[|sources| - 1], store);
      Gathered(sources[..|sources| - 1], store, field)
      + if fixture.Some? then EntriesOf(field(fixture.value)) else []
  }

  ghost predicate LoadedAs(sources: seq<ManifestItem>, loaded: seq<Loaded>, store: Artifacts) {
    |loaded| == |sources| && forall i :: 0 <= i < |sources| ==> LoadedFrom(sources[i], loaded[i], store)
  }

  lemma {:induction false} CollectedIsGathered(
    sources: seq<ManifestItem>, loaded: seq<Loaded>, store: Artifacts, field: Payload -> Field)
    requires LoadedAs(sources, loaded, store) && Collected(loaded, field).Good?
    ensures Collected(loaded, field).value == Gathered(sources, store, field)
    decreases |sources|
  {
    if sources != [] {
      var n := |sources| - 1;
      assert LoadedFrom(sources[n], loaded[n], store);
      CollectedIsGathered(sources[..n], loaded[..n], store, field);
    }
  }

  /** The six sections of a draft are what its sources' fixtures say under the same headings, in order, and each
      source is cited with what the manifest says of it. */
  ghost predicate Reports(draft: Draft, sorted: seq<ManifestItem>, store: Artifacts) {
    && draft.sections == Some(map[
      "background_and_problem" := Entries(Gathered(sorted, store, (p: Payload) => p.background)),
      "confirmed_facts" := Entries(Gathered(sorted, store, (p: Payload) => p.facts)),
      "decisions" := Entries(Gathered(sorted, store, (p: Payload) => p.decisions)),
      "action_items" := Entries(Gathered(sorted, store, (p: Payload) => p.actionItems)),
      "open_questions" := Entries(Gathered(sorted, store, (p: Payload) => p.openQuestions)),
      "risks" := Entries(Gathered(sorted, store, (p: Payload) => p.risks))])
    && |Listed(draft.citations)| == |sorted|
    && forall i :: 0 <= i < |sorted| ==> Cites(Listed(draft.citations)[i], sorted[i])
  }

  predicate Cites(citation: Option<Citation>, item: ManifestItem) {
    && item.metadata.Some? && item.artifact.Text?
    && var m := item.metadata.value;
    citation == Some(Citation(
      Text(Str(m.snapshotId)), Text(Str(m.refId)), Text(Str(m.revisionId)), item.artifact, Text("$")))
  }

  /** A successful execution reports every source of the manifest, in the order of their ordinals. */
  lemma ExecutionReports(
    items: seq<ManifestItem>, inputs: set<string>, objective: Json, store: Artifacts, maxSources: nat, maxBytes: int)
    returns (sorted: seq<ManifestItem>)
    requires Executed(items, inputs, objective, store, maxSources, maxBytes).Good?
    ensures multiset(sorted) == multiset(SourcesOf(items)) && InOrder(sorted, ItemOrdinal)
    ensures Reports(Executed(items, inputs, objective, store, maxSources, maxBytes).value, sorted, store)
    ensures Executed(items, inputs, objective, store, maxSources, maxBytes).value.title
         == Text(ChosenTitle(items, objective, store))
  {
    hide SortBy, LoadAll, Collected, Gathered, SourcesOf, TitleOf, IdTexts, Revised, InOrder;
    sorted := SortBy(SourcesOf(items), ItemOrdinal);
    SortIsSort(SourcesOf(items), ItemOrdinal);
    LoadedItems(sorted, inputs, store, maxBytes);
    var loaded := LoadAll(sorted, inputs, store, maxBytes).value.0;
    assert LoadedAs(sorted, loaded, store);
    TitleIsChosen(items, sorted, loaded, store, objective);
    CollectedIsGathered(sorted, loaded, store, (p: Payload) => p.background);
    CollectedIsGathered(sorted, loaded, store, (p: Payload) => p.facts);
    CollectedIsGathered(sorted, loaded, store, (p: Payload) => p.decisions);
    CollectedIsGathered(sorted, loaded, store, (p: Payload) => p.actionItems);
    CollectedIsGathered(sorted, loaded, store, (p: Payload) => p.openQuestions);
    CollectedIsGathered(sorted, loaded, store, (p: Payload) => p.risks);
  }

  // ---------------------------------------------------------------- when there is one

  /** A source bound to the task, described in full, of an allowed use, and stored as a JSON object. */
  predicate Loadable(item: ManifestItem, inputs: set<string>, store: Artifacts) {
    && item.artifact.Text? && item.artifact.text in inputs && item.metadata.Some? && Complete(item.metadata.value)
    && AllowedUse(item.allowedUse) && FixtureOf(item, store).Some?
  }

  predicate Readable(field: Field) {
    field.NullField? || field.Entries?
  }

  /** Every section of the source's fixture is an array or null. */
  predicate SectionsReadable(item: ManifestItem, store: Artifacts) {
    match FixtureOf(item, store)
    case None => false
    case Some(fixture) => AllReadable(fixture)
  }

  predicate AllReadable(p: Payload) {
    && Readable(p.background) && Readable(p.facts) && Readable(p.decisions) && Readable(p.actionItems)
    && Readable(p.openQuestions) && Readable(p.risks)
  }

  function BytesOf(item: ManifestItem, store: Artifacts): nat {
    if item.artifact.Text? && item.artifact.text in store then store[item.artifact.text].size else 0
  }

  function TotalBytes(items: seq<ManifestItem>, store: Artifacts): nat {
    if items == [] then 0 else TotalBytes(items[..|items| - 1], store) + BytesOf(items[|items| - 1], store)
  }

  lemma {:induction false} BytesOfPlaced(items: seq<ManifestItem>, item: ManifestItem, store: Artifacts)
    ensures TotalBytes(Place(items, item, ItemOrdinal), store) == TotalBytes(items, store) + BytesOf(item, store)
    decreases |items|
  {
    var n := |items| - 1;
    if items == [] || ItemOrdinal(items[n]) <= ItemOrdinal(item) {
      assert (items + [item])[..|items|] == items;
    } else {
      var placed := Place(items[..n], item, ItemOrdinal);
      BytesOfPlaced(items[..n], item, store);
      assert (placed + [items[n]])[..|placed|] == placed;
    }
  }

  lemma {:induction false} BytesOfSorted(items: seq<ManifestItem>, store: Artifacts)
    ensures TotalBytes(SortBy(items, ItemOrdinal), store) == TotalBytes(items, store)
    decreases |items|
  {
    if items != [] {
      BytesOfSorted(items[..|items| - 1], store);
      BytesOfPlaced(SortBy(items[..|items| - 1], ItemOrdinal), items[|items| - 1], store);
    }
  }

  lemma LoadOneIff(item: ManifestItem, inputs: set<string>, store: Artifacts, total: nat, limit: int)
    ensures var r := LoadOne(item, inputs, store, total, limit);
      && (r.Good? <==> Loadable(item, inputs, store) && total + BytesOf(item, store) <= limit)
      && (r.Good? ==> r.value.1 == total + BytesOf(item, store))
  {
  }

  /** The loop succeeds exactly when every source can be loaded and all together stay within the limit. */
  lemma {:induction false} LoadIff(items: seq<ManifestItem>, inputs: set<string>, store: Artifacts, limit: int)
    requires items != []
    ensures var r := LoadAll(items, inputs, store, limit);
      && (r.Good? <==>
            TotalBytes(items, store) <= limit && forall item :: item in items ==> Loadable(item, inputs, store))
      && (r.Good? ==> r.value.1 == TotalBytes(items, store))
    decreases |items|
  {
    var n := |items| - 1;
    assert items == items[..n] + [items[n]];
    hide LoadOne, Loadable, BytesOf;
    var earlier := LoadAll(items[..n], inputs, store, limit);
    if earlier.Good? {
      LoadOneIff(items[n], inputs, store, earlier.value.1, limit);
    }
    if n == 0 {
      assert items == [items[0]] && items[..n] == [] && LoadAll([], inputs, store, limit) == Good(([], 0));
      assert TotalBytes(items[..n], store) == 0 && items[0] in items;
    } else {
      LoadIff(items[..n], inputs, store, limit);
      assert forall item :: item in items <==> item in items[..n] || item == items[n];
    }
  }

  lemma SectionsIff(sorted: seq<ManifestItem>, loaded: seq<Loaded>, store: Artifacts)
    requires LoadedAs(sorted, loaded, store)
    ensures CollectSections(loaded).Good? <==> forall item :: item in sorted ==> SectionsReadable(item, store)
  {
    hide Collected, LoadedFrom;
    CollectedIff(loaded, (p: Payload) => p.background);
    CollectedIff(loaded, (p: Payload) => p.facts);
    CollectedIff(loaded, (p: Payload) => p.decisions);
    CollectedIff(loaded, (p: Payload) => p.actionItems);
    CollectedIff(loaded, (p: Payload) => p.openQuestions);
    CollectedIff(loaded, (p: Payload) => p.risks);
    forall i | 0 <= i < |sorted|
      ensures FixtureOf(sorted[i], store) == Some(loaded[i].payload)
    {
      FixtureLoaded(sorted[i], loaded[i], store);
    }
    assert forall i :: 0 <= i < |sorted| ==> SectionsReadable(sorted[i], store) == AllReadable(loaded[i].payload);
    assert CollectSections(loaded).Good? <==> forall i :: 0 <= i < |loaded| ==> AllReadable(loaded[i].payload);
  }

  lemma FixtureLoaded(item: ManifestItem, source: Loaded, store: Artifacts)
    requires LoadedFrom(item, source, store)
    ensures FixtureOf(item, store) == Some(source.payload)
  {
  }

  /** An execution succeeds exactly when there are sources, not too many and not too large together, every one
      can be loaded, and every section of each is an array or null. */
  lemma ExecutedIff(
    items: seq<ManifestItem>, inputs: set<string>, objective: Json, store: Artifacts, maxSources: nat, maxBytes: int)
    ensures Executed(items, inputs, objective, store, maxSources, maxBytes).Good? <==>
      && 1 <= |SourcesOf(items)| <= maxSources && TotalBytes(SourcesOf(items), store) <= maxBytes
      && forall item :: item in items && item.isSource ==>
           Loadable(item, inputs, store) && SectionsReadable(item, store)
  {
    hide SortBy, LoadAll, CollectSections, SourcesOf, TotalBytes, Loadable, SectionsReadable, DraftOf;
    var sources := SourcesOf(items);
    var sorted := SortBy(sources, ItemOrdinal);
    SortIsSort(sources, ItemOrdinal);
    BytesOfSorted(sources, store);
    SameLength(sorted, sources);
    forall item
      ensures item in sorted <==> item in items && item.isSource
    {
      SameMembers(sorted, sources, item);
      SourcesAreItems(items, item);
    }
    if sources != [] {
      LoadIff(sorted, inputs, store, maxBytes);
      if LoadAll(sorted, inputs, store, maxBytes).Good? {
        LoadedItems(sorted, inputs, store, maxBytes);
        SectionsIff(sorted, LoadAll(sorted, inputs, store, maxBytes).value.0, store);
      }
    }
  }

  /** A fixture without a risks section: its one source passes every check and the execution fails. */
  lemma AbsentSectionFails()
    ensures var item := NUMBERED.(metadata := Some(Metadata(Text("s"), Text("r"), Text("7"), Text("e"))));
      var store: Artifacts := map["a" := Content(1, Some(PAYLOAD.(risks := Absent)))];
      && LoadOne(item, {"a"}, store, 0, 1000000).Good? && StringIds(item) && CallsForAction(item, store)
      && Executed([item], {"a"}, Null, store, 8, 1000000) == Bad(FixtureInvalid)
  {
    var item := NUMBERED.(metadata := Some(Metadata(Text("s"), Text("r"), Text("7"), Text("e"))));
    var store: Artifacts := map["a" := Content(1, Some(PAYLOAD.(risks := Absent)))];
    var source := Loaded("a", "s", "r", "7", PAYLOAD.(risks := Absent));
    assert [item][..0] == [];
    assert SourcesOf([item]) == [item] && SortBy([item], ItemOrdinal) == [item];
    assert LoadAll([], {"a"}, store, 1000000) == Good(([], 0));
    assert LoadOne(item, {"a"}, store, 0, 1000000) == Good((source, 1));
    assert [] + [source] == [source];
    CollectedIff([source], (p: Payload) => p.risks);
  }

  const PAYLOAD := Payload(
    Text("t"), NullField, NullField, Entries(["d"]), NullField, NullField, NullField)
  const NUMBERED := ManifestItem(
    true, 1, Text("a"), Some(Metadata(Text("s"), Text("r"), Other("7", true), Text("e"))), Text("direct"))
  const STORE: Artifacts := map["a" := Content(1, Some(PAYLOAD))]

  /** A manifest whose revision id is a number: the executor succeeds with a title and a decision, and
      its record never passes. */
  lemma NumericRevisionFails()
    ensures var r := Executed([NUMBERED], {"a"}, Null, STORE, 8, 1000000);
      && r.Good? && NonBlank(r.value.title.text) && ActionabilityValid(r.value)
      && !AllPass(ChecksOf(r.value, [NUMBERED], STORE))
  {
    NumericRevisionRuns();
    hide Executed, ChecksOf, ActionabilityValid, NonBlank;
    PassedIff([NUMBERED], {"a"}, Null, STORE, 8, 1000000);
    assert NUMBERED in [NUMBERED];
  }

  lemma NumericRevisionRuns()
    ensures var r := Executed([NUMBERED], {"a"}, Null, STORE, 8, 1000000);
      r.Good? && NonBlank(r.value.title.text) && ActionabilityValid(r.value)
  {
    var source := Loaded("a", "s", "r", "7", PAYLOAD);
    var sections := Sections([], [], ["d"], [], [], []);
    OneSource();
    assert LoadAll([NUMBERED], {"a"}, STORE, 1000000) == Good(([source], 1)) by {
      assert [NUMBERED][..0] == [];
      assert LoadAll([], {"a"}, STORE, 1000000) == Good(([], 0));
      assert LoadOne(NUMBERED, {"a"}, STORE, 0, 1000000) == Good((source, 1));
      assert [] + [source] == [source];
    }
    assert CollectSections([source]) == Good(Sections([], [], ["d"], [], [], [])) by {
      CollectFrom(source, (p: Payload) => p.background);
      CollectFrom(source, (p: Payload) => p.facts);
      CollectFrom(source, (p: Payload) => p.decisions);
      CollectFrom(source, (p: Payload) => p.actionItems);
      CollectFrom(source, (p: Payload) => p.openQuestions);
      CollectFrom(source, (p: Payload) => p.risks);
    }
    assert TitleOf([source], Null) == "t";
    assert !IsWhite("t"[0]);
    hide SourcesOf, SortBy, LoadAll, CollectSections, ActionabilityValid, NonBlank, DraftOf;
    ActionabilityAgrees([source], Null, sections);
  }

  lemma OneSource()
    ensures SourcesOf([NUMBERED]) == [NUMBERED] && SortBy([NUMBERED], ItemOrdinal) == [NUMBERED]
  {
    assert [NUMBERED][..0] == [];
  }

  lemma CollectFrom(source: Loaded, field: Payload -> Field)
    requires field(source.payload).NullField? || field(source.payload).Entries?
    ensures Collected([source], field)
         == Good(if field(source.payload).NullField? then [] else field(source.payload).entries)
  {
    assert [source][..0] == [];
    assert Collected([], field) == Good([]);
    if field(source.payload).Entries? {
      assert [] + field(source.payload).entries == field(source.payload).entries;
    }
  }
}
