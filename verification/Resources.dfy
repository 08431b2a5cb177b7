/** Readers-writer leases on shared resources, fenced by a token per resource key. */
module Resources {
  import opened Prelude
  import opened Vocabulary
  import opened Journal
  import opened Store

  predicate Holding(row: ResourceLease, now: Time) {
    row.status.Active? && row.expiresAt > now
  }

  predicate Overdue(row: ResourceLease, key: string, now: Time) {
    row.resourceKey == key && row.status.Active? && row.expiresAt <= now
  }

  /** Writes one lease row with its event. */
  function WriteLease(s: Store, row: ResourceLease, origin: Origin, event: ResourceEvent): Store {
    var draft := DraftOf(ResourceStream(row.resourceKey), Some(row.threadId), origin, OfResource(event));
    s.(journal := Insert(s.journal, draft), leases := s.leases[row.leaseId := row])
  }

  /** `_expire_resource_leases` over the rows its query returned. */
  function ExpireLeases(s: Store, key: string, now: Time, rows: seq<string>): Store {
    if rows == [] then s
    else
      var rest := ExpireLeases(s, key, now, rows[..|rows| - 1]);
      var l := rows[|rows| - 1];
      if l in rest.leases && Overdue(rest.leases[l], key, now) then
        WriteLease(rest, rest.leases[l].(status := LeaseStatus.Expired), Origin("resource-coordinator", now, None),
                   LeaseExpired(l, rest.leases[l].token))
      else rest
  }

  /** A lease on the key that the requested mode cannot share. */
  predicate Conflicts(row: ResourceLease, key: string, mode: AccessMode, now: Time) {
    row.resourceKey == key && Holding(row, now) && (!mode.Read? || !row.mode.Read?)
  }

  predicate Contended(s: Store, key: string, mode: AccessMode, now: Time) {
    exists l :: l in s.leases && Conflicts(s.leases[l], key, mode, now)
  }

  function LastToken(s: Store, key: string): nat {
    if key in s.fences then s.fences[key] else 0
  }

  /** `acquire_resource`. */
  function AcquireResource(
    s: Store, key: string, mode: AccessMode, owner: Id, thread: Id, seconds: int, actor: string, leaseId: string,
    rows: seq<string>, now: Time): Result<Store>
  {
    if seconds < 1 then Err(ValueError)
    else
      var swept := ExpireLeases(s, key, now, rows);
      if Contended(swept, key, mode, now) then Err(Error.ResourceConflict)
      else if leaseId in swept.leases then Err(IntegrityError)
      else
        var row := ResourceLease(
          leaseId, key, mode, owner, thread, LastToken(swept, key) + 1, now, now + seconds, LeaseStatus.Active);
        Ok(GrantLease(swept, row, Origin(actor, now, None)))
  }

  function GrantLease(s: Store, row: ResourceLease, origin: Origin): Store {
    WriteLease(s, row, origin, LeaseAcquired(row.leaseId, row.mode, row.token, row.expiresAt))
      .(fences := s.fences[row.resourceKey := row.token])
  }

  /** `_assert_live_resource_lease`. */
  predicate LiveResource(s: Store, lease: ResourceLease, now: Time) {
    && lease.leaseId in s.leases
    && var row := s.leases[lease.leaseId];
    && row.status.Active? && row.resourceKey == lease.resourceKey && row.ownerRun == lease.ownerRun
    && row.token == lease.token && row.expiresAt > now
  }

  /** `renew_resource`. */
  function RenewResource(s: Store, lease: ResourceLease, seconds: int, actor: string, now: Time): Result<Store> {
    if !LiveResource(s, lease, now) then Err(StaleLease)
    else
      Ok(WriteLease(s, s.leases[lease.leaseId].(expiresAt := now + seconds), Origin(actor, now, None),
                    LeaseRenewed(lease.leaseId, lease.token, now + seconds)))
  }

  /** `release_resource`. */
  function ReleaseResource(s: Store, lease: ResourceLease, actor: string, now: Time): Result<Store> {
    if !LiveResource(s, lease, now) then Err(StaleLease)
    else
      Ok(WriteLease(s, s.leases[lease.leaseId].(status := LeaseStatus.Released), Origin(actor, now, None),
                    LeaseReleased(lease.leaseId, lease.token)))
  }

  predicate Grants(event: Event, key: string) {
    match event.body
    case OfResource(LeaseAcquired(_, _, _, _)) => event.stream == ResourceStream(key)
    case _ => false
  }

  /** The leases ever granted on a key. */
  function GrantsIssued(journal: seq<Event>, key: string): nat {
    if journal == [] then 0
    else
      GrantsIssued(journal[..|journal| - 1], key) + if Grants(journal[|journal| - 1], key) then 1 else 0
  }

  // =========================================================================== every caller
  // Mutual exclusion and fencing of resource leases, for every caller.

  /** Grants on a key carry the tokens 1, 2, 3, ... in the order they were made. */
  ghost predicate GrantsNumbered(journal: seq<Event>) {
    forall i :: 0 <= i < |journal| && journal[i].stream.ResourceStream? ==>
      Grants(journal[i], journal[i].stream.resource) ==>
        journal[i].body.resource.token == GrantsIssued(journal[..i + 1], journal[i].stream.resource)
  }

  ghost predicate FencesCountGrants(s: Store) {
    forall key :: GrantsIssued(s.journal, key) == LastToken(s, key)
  }

  /** Two different leases of one resource. */
  ghost predicate SameKey(s: Store, l: string, m: string) {
    l in s.leases && m in s.leases && l != m && Row(s.leases, l).resourceKey == Row(s.leases, m).resourceKey
  }

  ghost predicate LeaseRowsOK(s: Store) {
    && (forall l :: l in s.leases ==> LeaseRowOK(s, l, Row(s.leases, l)))
    && (forall l, m :: SameKey(s, l, m) ==> Row(s.leases, l).token != Row(s.leases, m).token)
  }

  predicate LeaseRowOK(s: Store, l: string, row: ResourceLease) {
    row.leaseId == l && 1 <= row.token <= LastToken(s, row.resourceKey)
  }

  /** The unexpired leases of a key are all readers, or one lease alone. */
  ghost predicate ReadersOrOneWriter(s: Store) {
    forall l, m :: SameKey(s, l, m) ==>
      Holding(s.leases[l], s.clock) && Holding(s.leases[m], s.clock) ==>
        s.leases[l].mode.Read? && s.leases[m].mode.Read?
  }

  ghost predicate ResourcesInv(s: Store) {
    GrantsNumbered(s.journal) && FencesCountGrants(s) && LeaseRowsOK(s) && ReadersOrOneWriter(s)
  }

  /** Lease rows keep their identity, tokens never fall, and a lease that ended stays ended. */
  ghost predicate LeasesAdvance(s: Store, t: Store) {
    && s.clock <= t.clock
    && (forall l :: l in s.leases ==> l in t.leases && LeaseKept(Row(s.leases, l), s.clock, Row(t.leases, l), t.clock))
    && (forall key :: LastToken(s, key) <= LastToken(t, key))
  }

  predicate LeaseKept(was: ResourceLease, before: Time, row: ResourceLease, now: Time) {
    && row.resourceKey == was.resourceKey && row.mode == was.mode && row.ownerRun == was.ownerRun
    && row.token == was.token
    && (Holding(row, now) ==> Holding(was, before))
  }

  lemma LeasesAdvanceTransitive(s: Store, t: Store, u: Store)
    requires LeasesAdvance(s, t) && LeasesAdvance(t, u)
    ensures LeasesAdvance(s, u)
  {
    forall l | l in s.leases
      ensures l in u.leases
    {
      assert l in t.leases;
    }
    forall key
      ensures LastToken(s, key) <= LastToken(u, key)
    {
      assert LastToken(s, key) <= LastToken(t, key);
    }
  }

  lemma GrantsInsert(journal: seq<Event>, draft: Draft, key: string)
    ensures GrantsIssued(Insert(journal, draft), key)
         == GrantsIssued(journal, key) + if Grants(Envelope(journal, draft), key) then 1 else 0
  {
    var next := Insert(journal, draft);
    assert next[..|next| - 1] == journal;
  }

  lemma {:induction false} GrantsQuiet(before: seq<Event>, more: seq<Event>, key: string)
    requires forall e :: e in more ==> !e.stream.ResourceStream?
    ensures GrantsIssued(before + more, key) == GrantsIssued(before, key)
    decreases |more|
  {
    if more == [] {
      assert before + more == before;
    } else {
      assert (before + more)[..|before + more| - 1] == before + more[..|more| - 1];
      GrantsQuiet(before, more[..|more| - 1], key);
    }
  }

  /** Work elsewhere in the store leaves the leases alone, however much time passes. */
  lemma QuietKeepsResources(s: Store, t: Store)
    requires ResourcesInv(s) && Quiet(s, t, Area.Resources) && s.clock <= t.clock
    ensures ResourcesInv(t) && LeasesAdvance(s, t)
  {
    hide WriteJob;
    forall key
      ensures GrantsIssued(t.journal, key) == LastToken(t, key)
    {
      assert t.journal == s.journal + t.journal[|s.journal|..];
      GrantsQuiet(s.journal, t.journal[|s.journal|..], key);
      assert GrantsIssued(s.journal, key) == LastToken(s, key);
    }
    forall i | 0 <= i < |t.journal| && t.journal[i].stream.ResourceStream?
               && Grants(t.journal[i], t.journal[i].stream.resource)
      ensures t.journal[i].body.resource.token == GrantsIssued(t.journal[..i + 1], t.journal[i].stream.resource)
    {
      assert i < |s.journal|;
      assert t.journal[..i + 1] == s.journal[..i + 1];
    }
  }

  /** What a write of one lease row does to the numbering of grants. */
  lemma WriteKeepsNumbers(s: Store, t: Store, draft: Draft)
    requires GrantsNumbered(s.journal) && FencesCountGrants(s)
    requires draft.stream.ResourceStream? && t.journal == Insert(s.journal, draft)
    requires var key := draft.stream.resource;
      if draft.body.OfResource? && draft.body.resource.LeaseAcquired? then
        draft.body.resource.token == LastToken(s, key) + 1 && t.fences == s.fences[key := LastToken(s, key) + 1]
      else t.fences == s.fences
    ensures GrantsNumbered(t.journal) && FencesCountGrants(t)
  {
    assert GrantsIssued(s.journal, draft.stream.resource) == LastToken(s, draft.stream.resource);
    assert GrantsNumbered(Insert(s.journal, draft)) by {
      var next := Insert(s.journal, draft);
      forall i | 0 <= i < |next| && next[i].stream.ResourceStream? && Grants(next[i], next[i].stream.resource)
        ensures next[i].body.resource.token == GrantsIssued(next[..i + 1], next[i].stream.resource)
      {
        if i < |s.journal| {
          assert next[..i + 1] == s.journal[..i + 1];
        } else {
          assert next[..i + 1] == next;
          GrantsInsert(s.journal, draft, next[i].stream.resource);
        }
      }
    }
    forall key
      ensures GrantsIssued(t.journal, key) == LastToken(t, key)
    {
      GrantsInsert(s.journal, draft, key);
      assert GrantsIssued(s.journal, key) == LastToken(s, key);
    }
  }

  /** A write that ends or moves the end of a lease nobody else could have taken meanwhile. */
  lemma RewriteKeepsInv(s: Store, row: ResourceLease, origin: Origin, event: ResourceEvent)
    requires ResourcesInv(s) && row.leaseId in s.leases
    requires LeaseKept(Row(s.leases, row.leaseId), s.clock, row, s.clock) && !event.LeaseAcquired?
    ensures var t := WriteLease(s, row, origin, event);
      ResourcesInv(t) && LeasesAdvance(s, t)
  {
    hide GrantsNumbered, FencesCountGrants, Insert;
    var t := WriteLease(s, row, origin, event);
    WriteKeepsNumbers(s, t, DraftOf(ResourceStream(row.resourceKey), Some(row.threadId), origin, OfResource(event)));
    forall l | l in s.leases
      ensures LeaseKept(Row(s.leases, l), s.clock, Row(t.leases, l), t.clock)
      ensures LeaseRowOK(t, l, Row(t.leases, l))
    {
      assert LeaseRowOK(s, l, Row(s.leases, l));
    }
    hide WriteLease, LeaseRowOK;
    assert t.leases.Keys == s.leases.Keys && t.fences == s.fences && t.clock == s.clock;
    forall l, m | SameKey(t, l, m)
      ensures SameKey(s, l, m)
    {
    }
  }

  lemma {:induction false} ExpireKeepsInv(s: Store, key: string, now: Time, rows: seq<string>)
    requires ResourcesInv(s) && now == s.clock
    ensures var t := ExpireLeases(s, key, now, rows);
      ResourcesInv(t) && LeasesAdvance(s, t) && t.clock == s.clock && t.fences == s.fences
    decreases |rows|
  {
    hide FencesCountGrants, GrantsNumbered, Insert;
    if rows == [] {
      assert LeasesAdvance(s, s);
    } else {
      var rest := ExpireLeases(s, key, now, rows[..|rows| - 1]);
      var l := rows[|rows| - 1];
      ExpireKeepsInv(s, key, now, rows[..|rows| - 1]);
      if l in rest.leases && Overdue(rest.leases[l], key, now) {
        assert rest.leases[l].leaseId == l;
        var row := rest.leases[l].(status := LeaseStatus.Expired);
        RewriteKeepsInv(rest, row, Origin("resource-coordinator", now, None), LeaseExpired(l, row.token));
        LeasesAdvanceTransitive(s, rest, ExpireLeases(s, key, now, rows));
      }
    }
  }

  lemma GrantShares(s: Store, row: ResourceLease, origin: Origin)
    requires ReadersOrOneWriter(s)
    requires row.leaseId !in s.leases && !Contended(s, row.resourceKey, row.mode, s.clock)
    ensures ReadersOrOneWriter(GrantLease(s, row, origin))
  {
    hide Insert;
    var t := GrantLease(s, row, origin);
    forall l | l in s.leases && s.leases[l].resourceKey == row.resourceKey && Holding(s.leases[l], s.clock)
      ensures s.leases[l].mode.Read? && row.mode.Read?
    {
      assert !Conflicts(s.leases[l], row.resourceKey, row.mode, s.clock);
    }
    forall l, m | SameKey(t, l, m)
      ensures SameKey(s, l, m) || l == row.leaseId || m == row.leaseId
    {
    }
  }

  lemma GrantKeepsInv(s: Store, row: ResourceLease, origin: Origin)
    requires ResourcesInv(s)
    requires row.leaseId !in s.leases && row.token == LastToken(s, row.resourceKey) + 1
    requires !Contended(s, row.resourceKey, row.mode, s.clock)
    ensures ResourcesInv(GrantLease(s, row, origin)) && LeasesAdvance(s, GrantLease(s, row, origin))
  {
    hide GrantsNumbered, FencesCountGrants, ReadersOrOneWriter, Contended, Insert;
    var t := GrantLease(s, row, origin);
    var event := LeaseAcquired(row.leaseId, row.mode, row.token, row.expiresAt);
    WriteKeepsNumbers(s, t, DraftOf(ResourceStream(row.resourceKey), Some(row.threadId), origin, OfResource(event)));
    GrantShares(s, row, origin);
    assert LeasesAdvance(s, t) by {
      hide LeaseRowsOK;
    }
    forall l | l in t.leases
      ensures LeaseRowOK(t, l, Row(t.leases, l))
    {
      assert l != row.leaseId ==> LeaseRowOK(s, l, Row(s.leases, l));
    }
    forall l, m | SameKey(t, l, m)
      ensures Row(t.leases, l).token != Row(t.leases, m).token
    {
      assert l != row.leaseId ==> LeaseRowOK(s, l, Row(s.leases, l));
      assert m != row.leaseId ==> LeaseRowOK(s, m, Row(s.leases, m));
      assert l != row.leaseId && m != row.leaseId ==> SameKey(s, l, m);
    }
  }

  /** At most the state of the lease changed, and not that it is in force. */
  predicate Spared(was: ResourceLease, row: ResourceLease, now: Time) {
    row == was.(status := row.status) && (Holding(was, now) <==> Holding(row, now))
  }

  /** The sweep changes no lease that is still in force. */
  lemma {:induction false} SweepSparesHolders(s: Store, key: string, now: Time, rows: seq<string>)
    requires LeaseRowsOK(s)
    ensures var t := ExpireLeases(s, key, now, rows);
      && t.leases.Keys == s.leases.Keys && t.fences == s.fences
      && (forall l :: l in s.leases ==> Spared(Row(s.leases, l), Row(t.leases, l), now))
    decreases |rows|
  {
    hide Insert, LastToken;
    if rows != [] {
      var n := |rows| - 1;
      SweepSparesHolders(s, key, now, rows[..n]);
      var rest := ExpireLeases(s, key, now, rows[..n]);
      if rows[n] in s.leases {
        assert LeaseRowOK(s, rows[n], Row(s.leases, rows[n]));
        assert Spared(Row(s.leases, rows[n]), Row(rest.leases, rows[n]), now);
      }
    }
  }

  /** A request is granted exactly when every lease in force on the key can share with it. */
  lemma AcquireIff(
    s: Store, key: string, mode: AccessMode, owner: Id, thread: Id, seconds: int, actor: string, leaseId: string,
    rows: seq<string>)
    requires ResourcesInv(s) && seconds >= 1 && leaseId !in s.leases
    ensures AcquireResource(s, key, mode, owner, thread, seconds, actor, leaseId, rows, s.clock).Ok? <==>
      forall l :: l in s.leases && Row(s.leases, l).resourceKey == key && Holding(Row(s.leases, l), s.clock) ==>
        mode.Read? && Row(s.leases, l).mode.Read?
  {
    hide ExpireLeases, LeaseRowsOK, WriteJob, WriteLease, FencesCountGrants, GrantsNumbered, ReadersOrOneWriter;
    SweepSparesHolders(s, key, s.clock, rows);
    var t := ExpireLeases(s, key, s.clock, rows);
    assert forall l :: l in s.leases && Spared(Row(s.leases, l), Row(t.leases, l), s.clock) ==>
      (Conflicts(s.leases[l], key, mode, s.clock) <==> Conflicts(t.leases[l], key, mode, s.clock));
    if l :| l in s.leases && Conflicts(s.leases[l], key, mode, s.clock) {
      assert Contended(t, key, mode, s.clock);
    }
  }

  lemma {:induction false} GrantsMonotone(before: seq<Event>, after: seq<Event>, key: string)
    requires before <= after
    ensures GrantsIssued(before, key) <= GrantsIssued(after, key)
    decreases |after|
  {
    if |before| < |after| {
      assert before <= after[..|after| - 1];
      GrantsMonotone(before, after[..|after| - 1], key);
    } else {
      assert before == after;
    }
  }

  /** Of two grants on a key the later has the larger token, and no token passes the fence. */
  lemma TokensIncrease(s: Store, i: nat, j: nat, key: string)
    requires ResourcesInv(s)
    requires i < j < |s.journal| && Grants(s.journal[i], key) && Grants(s.journal[j], key)
    ensures s.journal[i].body.resource.token < s.journal[j].body.resource.token <= LastToken(s, key)
  {
    hide WriteJob, LeaseRowsOK, ReadersOrOneWriter;
    assert s.journal[..j + 1][..j] == s.journal[..j];
    GrantsMonotone(s.journal[..i + 1], s.journal[..j], key);
    GrantsMonotone(s.journal[..j + 1], s.journal, key);
    assert GrantsIssued(s.journal, key) == LastToken(s, key);
  }
}
