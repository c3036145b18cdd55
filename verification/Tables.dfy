/** The two tables of the Control Plane database and the transactions on them.

    A transaction is a function from the tables to the tables and a reply; an
    error reply leaves the tables as they were. */
module Tables {
  import opened Wrappers
  import opened Domain

  /** `issued` is the history of Host IDs handed out by the UUID generator. */
  datatype Tables = Tables(
    claims: map<HostClaimId, ClaimRow>,
    hosts: map<HostId, HostRow>,
    issued: set<HostId>)

  const EMPTY := Tables(map[], map[], {})

  datatype Reply<+T> = Reply(tables: Tables, result: Result<T, AppError>)

  /* ---------- schema ---------- */

  predicate Owns(t: Tables, h: HostId, c: HostClaimId) {
    h in t.hosts && t.hosts[h].claimId == c
  }

  /** Another host row than `h` records this provider resource. */
  ghost predicate RecordedElsewhere(t: Tables, h: HostId, r: ResourceId) {
    exists other :: other in t.hosts && other != h && t.hosts[other].resourceId == Some(r)
  }

  /** Foreign key with cascade, UNIQUE claim_id, UNIQUE provider_resource_id. */
  ghost predicate Schema(t: Tables) {
    && (forall h :: h in t.hosts ==> t.hosts[h].claimId in t.claims && h in t.issued)
    && (forall h, g :: h in t.hosts && g in t.hosts && t.hosts[h].claimId == t.hosts[g].claimId ==> h == g)
    && (forall h, g :: h in t.hosts && g in t.hosts && t.hosts[h].resourceId.Some? ==>
          t.hosts[h].resourceId == t.hosts[g].resourceId ==> h == g)
  }

  /** The Host joined to a claim. */
  ghost function HostOf(t: Tables, c: HostClaimId): (r: Option<HostId>)
    ensures r.Some? ==> Owns(t, r.value, c)
    ensures r.None? ==> forall h :: h in t.hosts ==> t.hosts[h].claimId != c
  {
    if exists h :: Owns(t, h, c) then
      var h :| Owns(t, h, c); Some(h)
    else
      assert forall h :: h in t.hosts ==> !Owns(t, h, c);
      None
  }

  ghost function RecordOf(t: Tables, c: HostClaimId): ClaimRecord
    requires c in t.claims
  {
    ClaimRecord(c, t.claims[c], HostOf(t, c))
  }

  /* ---------- validation ---------- */

  /** Positive and within the range of an SQLite integer. */
  predicate Storable(r: HostResources) {
    && 0 < r.vcpus
    && 0 < r.memoryBytes <= I64_MAX
    && 0 < r.storageBytes <= I64_MAX
  }

  function ValidateResources(r: HostResources): (v: Result<(), AppError>)
    ensures v.Ok? <==> Storable(r)
  {
    if r.vcpus == 0 then Err(InvalidArgument)
    else if r.memoryBytes == 0 then Err(InvalidArgument)
    else if r.storageBytes == 0 then Err(InvalidArgument)
    else if r.memoryBytes > I64_MAX then Err(InvalidArgument)
    else if r.storageBytes > I64_MAX then Err(InvalidArgument)
    else Ok(())
  }

  predicate SameAssignment(host: HostRow, planId: PlanId, resources: HostResources) {
    host.planId == planId && host.resources == resources
  }

  /* ---------- transactions on claims ---------- */

  ghost function CreateClaim(t: Tables, id: HostClaimId, spec: HostResources, now: Timestamp): Reply<ClaimRecord> {
    if !Storable(spec) then Reply(t, Err(InvalidArgument))
    else if id in t.claims then
      if t.claims[id].spec == spec then Reply(t, Ok(RecordOf(t, id)))
      else Reply(t, Err(Conflict))
    else
      var row := InitialClaim(spec, now);
      Reply(t.(claims := t.claims[id := row]), Ok(ClaimRecord(id, row, None)))
  }

  /** What `mark_claim_deleting` writes into a live row. */
  function DeletionRow(row: ClaimRow, now: Timestamp): ClaimRow {
    row.(deletionTimestamp := Some(now),
         observedGeneration := row.generation,
         conditions := SetCondition(row.conditions,
                                    Condition(READY, False, DeletionRequested, BeingReleased, row.generation,
                                              now)).conditions,
         retry := NO_RETRY)
  }

  ghost function MarkClaimDeleting(t: Tables, id: HostClaimId, now: Timestamp): Reply<ClaimRecord> {
    if id !in t.claims then Reply(t, Err(NotFound))
    else if t.claims[id].deletionTimestamp.Some? then Reply(t, Ok(RecordOf(t, id)))
    else
      var row := DeletionRow(t.claims[id], now);
      Reply(t.(claims := t.claims[id := row]), Ok(ClaimRecord(id, row, HostOf(t, id))))
  }

  /** The stored row with the columns `save_claim_status` writes. */
  function WithStatus(row: ClaimRow, from: ClaimRow): ClaimRow {
    row.(observedGeneration := from.observedGeneration, conditions := from.conditions, retry := from.retry)
  }

  /** The conditional update: it applies when the deletion intent is unchanged. */
  predicate Current(t: Tables, record: ClaimRecord) {
    record.id in t.claims && t.claims[record.id].deletionTimestamp == record.row.deletionTimestamp
  }

  function SaveClaimStatus(t: Tables, record: ClaimRecord): Tables {
    if Current(t, record)
    then t.(claims := t.claims[record.id := WithStatus(t.claims[record.id], record.row)])
    else t
  }

  function FinalizeClaim(t: Tables, id: HostClaimId): (r: Reply<()>) {
    if id !in t.claims then Reply(t, Err(NotFound))
    else
      Reply(t.(claims := t.claims - {id},
               hosts := map h | h in t.hosts && t.hosts[h].claimId != id :: t.hosts[h]),
            Ok(()))
  }

  /* ---------- transactions on hosts ---------- */

  function AssignedClaimRow(row: ClaimRow, h: HostId, now: Timestamp): ClaimRow {
    var cs := SetCondition(row.conditions,
                           Condition(ACCEPTED, True, RequirementsValid, PolicySatisfies, row.generation,
                                     now)).conditions;
    var cs := SetCondition(cs, Condition(BOUND, True, HostAssigned, AssignedHost(h), row.generation, now)).conditions;
    var cs := SetCondition(cs, Condition(READY, False, HostNotReady, HostNotReadyYet, row.generation, now)).conditions;
    row.(observedGeneration := row.generation, conditions := cs, retry := NO_RETRY)
  }

  ghost function EnsureHost(t: Tables, c: HostClaimId, planId: PlanId, resources: HostResources,
                            newId: HostId, now: Timestamp): Reply<HostRecord>
  {
    if !Storable(resources) then Reply(t, Err(InvalidArgument))
    else if c !in t.claims then Reply(t, Err(NotFound))
    else if t.claims[c].deletionTimestamp.Some? then Reply(t, Err(Conflict))
    else
      match HostOf(t, c)
      case Some(h) =>
        if SameAssignment(t.hosts[h], planId, resources) then Reply(t, Ok(HostRecord(h, t.hosts[h])))
        else Reply(t, Err(Conflict))
      case None =>
        if newId in t.hosts then Reply(t, Err(Internal))
        else
          var row := InitialHost(c, resources, planId, now);
          Reply(Tables(t.claims[c := AssignedClaimRow(t.claims[c], newId, now)],
                       t.hosts[newId := row],
                       t.issued + {newId}),
                Ok(HostRecord(newId, row)))
  }

  function GetHost(t: Tables, h: HostId): Result<HostRecord, AppError> {
    if h in t.hosts then Ok(HostRecord(h, t.hosts[h])) else Err(NotFound)
  }

  /** The stored row with the columns `save_host` writes. */
  function WithObservation(row: HostRow, from: HostRow): HostRow {
    row.(phase := from.phase, resourceId := from.resourceId, observedAt := from.observedAt,
         conditions := from.conditions, retry := from.retry)
  }

  ghost function SaveHost(t: Tables, record: HostRecord): Reply<()> {
    if record.id !in t.hosts then Reply(t, Err(NotFound))
    else if record.row.resourceId.Some? && RecordedElsewhere(t, record.id, record.row.resourceId.value) then
      Reply(t, Err(Internal))
    else
      Reply(t.(hosts := t.hosts[record.id := WithObservation(t.hosts[record.id], record.row)]), Ok(()))
  }

  /* ---------- list_claims ---------- */

  predicate Before(a: ClaimRecord, b: ClaimRecord) {
    a.row.createdAt < b.row.createdAt || (a.row.createdAt == b.row.createdAt && a.id < b.id)
  }

  predicate Ordered(s: seq<ClaimRecord>) {
    forall i, j :: 0 <= i < j < |s| ==> Before(s[i], s[j])
  }

  /** The rows of `host_claims` joined with their hosts, in (created_at, id) order. */
  ghost predicate IsListing(t: Tables, s: seq<ClaimRecord>) {
    && Ordered(s)
    && (forall i :: 0 <= i < |s| ==> s[i].id in t.claims && s[i] == RecordOf(t, s[i].id))
    && (forall c :: c in t.claims ==> RecordOf(t, c) in s)
  }

  /** The order by (created_at, id) leaves the database no choice. */
  lemma ListingIsUnique(t: Tables, a: seq<ClaimRecord>, b: seq<ClaimRecord>)
    requires IsListing(t, a) && IsListing(t, b)
    ensures a == b
  {
    forall r ensures r in a <==> r in b {}
    OrderedEnumerationIsUnique(a, b);
  }

  /** A listing has every claim exactly once, the older first, and of two claims made
      at the same time the one with the smaller ID. */
  lemma ListingIsByAge(t: Tables, s: seq<ClaimRecord>, a: HostClaimId, b: HostClaimId)
    requires IsListing(t, s) && a in t.claims && b in t.claims && a != b
    requires t.claims[a].createdAt < t.claims[b].createdAt || (t.claims[a].createdAt == t.claims[b].createdAt && a < b)
    ensures exists i, j :: 0 <= i < j < |s| && s[i].id == a && s[j].id == b
    ensures forall i, j :: 0 <= i < |s| && 0 <= j < |s| && s[i].id == s[j].id ==> i == j
  {
    assert RecordOf(t, a) in s && RecordOf(t, b) in s;
    var i :| 0 <= i < |s| && s[i] == RecordOf(t, a);
    var j :| 0 <= j < |s| && s[j] == RecordOf(t, b);
    FirstComesFirst(s, i, j);
    forall i, j | 0 <= i < j < |s| ensures s[i].id != s[j].id { assert Before(s[i], s[j]); }
  }

  lemma FirstComesFirst(s: seq<ClaimRecord>, i: nat, j: nat)
    requires Ordered(s) && i < |s| && j < |s| && i != j && !Before(s[j], s[i])
    ensures i < j
  {}

  lemma {:induction false} OrderedEnumerationIsUnique(a: seq<ClaimRecord>, b: seq<ClaimRecord>)
    requires Ordered(a) && Ordered(b)
    requires forall r :: r in a <==> r in b
    ensures a == b
  {
    if a == [] {
      FirstIsLeast(b, 0);
    } else {
      assert a[0] in a && b != [];
      assert b[0] in b;
      var k :| 0 <= k < |b| && b[k] == a[0];
      var m :| 0 <= m < |a| && a[m] == b[0];
      FirstIsLeast(b, k);
      FirstIsLeast(a, m);
      forall r ensures r in a[1..] <==> r in b[1..] {
        assert r in a[1..] <==> r in a && r != a[0] by { NotFirst(a, r); }
        assert r in b[1..] <==> r in b && r != b[0] by { NotFirst(b, r); }
      }
      OrderedEnumerationIsUnique(a[1..], b[1..]);
      assert a == [a[0]] + a[1..] && b == [b[0]] + b[1..];
    }
  }

  lemma FirstIsLeast(s: seq<ClaimRecord>, k: nat)
    ensures s != [] ==> s[0] in s
    ensures Ordered(s) && 0 < k < |s| ==> Before(s[0], s[k])
  {}

  lemma NotFirst(s: seq<ClaimRecord>, r: ClaimRecord)
    requires Ordered(s) && s != []
    ensures r in s[1..] <==> r in s && r != s[0]
  {
    if r in s[1..] {
      var j :| 1 <= j < |s| && s[j] == r;
      assert Before(s[0], s[j]);
    }
  }

  /* ---------- properties of the transactions ---------- */

  lemma HostOfIs(t: Tables, h: HostId)
    requires Schema(t) && h in t.hosts
    ensures HostOf(t, t.hosts[h].claimId) == Some(h)
  {
    assert Owns(t, h, t.hosts[h].claimId);
  }

  /** Every transaction keeps the schema; the only constraint one of them can
      run into is the UNIQUE provider resource, and it then reports an error. */
  lemma TransactionsKeepSchema(t: Tables, id: HostClaimId, spec: HostResources, claim: ClaimRecord, host: HostRecord,
                               planId: PlanId, newId: HostId, now: Timestamp)
    requires Schema(t)
    ensures Schema(CreateClaim(t, id, spec, now).tables)
    ensures Schema(MarkClaimDeleting(t, id, now).tables)
    ensures Schema(SaveClaimStatus(t, claim))
    ensures Schema(FinalizeClaim(t, id).tables)
    ensures Schema(EnsureHost(t, id, planId, spec, newId, now).tables)
    ensures Schema(SaveHost(t, host).tables)
  {
    hide EnsureHost, SaveHost, FinalizeClaim, SaveClaimStatus, SetCondition;
    EnsureHostKeepsSchema(t, id, planId, spec, newId, now);
    SaveHostKeepsSchema(t, host);
    SaveStatusKeepsSchema(t, claim);
    FinalizeKeepsSchema(t, id);
  }

  lemma SaveStatusKeepsSchema(t: Tables, claim: ClaimRecord)
    requires Schema(t)
    ensures Schema(SaveClaimStatus(t, claim))
  {}

  lemma FinalizeKeepsSchema(t: Tables, id: HostClaimId)
    requires Schema(t)
    ensures Schema(FinalizeClaim(t, id).tables)
  {}

  lemma EnsureHostKeepsSchema(t: Tables, c: HostClaimId, planId: PlanId, resources: HostResources, newId: HostId,
                              now: Timestamp)
    requires Schema(t)
    ensures Schema(EnsureHost(t, c, planId, resources, newId, now).tables)
  {
    var u := EnsureHost(t, c, planId, resources, newId, now).tables;
    if u != t {
      assert forall h :: h in u.hosts ==> h == newId || (h in t.hosts && u.hosts[h] == t.hosts[h]);
    }
  }

  lemma SaveHostKeepsSchema(t: Tables, host: HostRecord)
    requires Schema(t)
    ensures Schema(SaveHost(t, host).tables)
  {
    var u := SaveHost(t, host).tables;
    if u != t && host.row.resourceId.Some? {
      assert !RecordedElsewhere(t, host.id, host.row.resourceId.value);
      assert forall h :: h in u.hosts ==> h == host.id || u.hosts[h] == t.hosts[h];
    }
  }

  /** Repeating a successful `create_claim` or `ensure_host` with equal arguments
      returns the same record and leaves the tables as they are; an error
      changes nothing. */
  lemma CreateAndEnsureAreIdempotent(t: Tables, c: HostClaimId, spec: HostResources, planId: PlanId,
                                     newId: HostId, newId': HostId, now: Timestamp, later: Timestamp)
    requires Schema(t)
    ensures var once := CreateClaim(t, c, spec, now);
            && (once.result.Err? ==> once.tables == t)
            && (once.result.Ok? ==>
                && c in once.tables.claims && once.tables.claims[c].spec == spec
                && CreateClaim(once.tables, c, spec, later) == once)
    ensures var once := EnsureHost(t, c, planId, spec, newId, now);
            && (once.result.Err? ==> once.tables == t)
            && (once.result.Ok? ==>
                && Owns(once.tables, once.result.value.id, c)
                && SameAssignment(once.result.value.row, planId, spec)
                && EnsureHost(once.tables, c, planId, spec, newId', later) == once)
  {
    var made := CreateClaim(t, c, spec, now);
    if made.result.Ok? && c !in t.claims {
      assert forall h :: h in t.hosts ==> t.hosts[h].claimId != c;
    }
    var ensured := EnsureHost(t, c, planId, spec, newId, now);
    if ensured.result.Ok? {
      EnsureHostKeepsSchema(t, c, planId, spec, newId, now);
      HostOfIs(ensured.tables, ensured.result.value.id);
    }
  }

  /** `create_claim` accepts a second request for an ID exactly when the spec is equal. */
  lemma CreateClaimConflicts(t: Tables, c: HostClaimId, spec: HostResources, now: Timestamp)
    requires c in t.claims && Storable(spec)
    ensures CreateClaim(t, c, spec, now).result == Err(Conflict) <==> t.claims[c].spec != spec
    ensures CreateClaim(t, c, spec, now).tables == t
  {}

  /** A host is made exactly for a live claim that has none; the claim then shows
      that it is accepted and bound to this host, which is not ready, and no other
      row is touched. */
  lemma EnsureBinds(t: Tables, c: HostClaimId, planId: PlanId, resources: HostResources, newId: HostId, now: Timestamp)
    requires newId !in t.hosts
    ensures var r := EnsureHost(t, c, planId, resources, newId, now);
            var u := r.tables;
            && (u != t <==> && Storable(resources) && c in t.claims && t.claims[c].deletionTimestamp.None?
                            && HostOf(t, c).None?)
            && (u != t ==>
                  && r.result.Ok? && r.result.value.id == newId
                  && newId in u.hosts && u.hosts == t.hosts[newId := u.hosts[newId]]
                  && c in u.claims && u.claims == t.claims[c := u.claims[c]]
                  && NewlyBound(t.claims[c], u.claims[c], newId) && NewHost(u.hosts[newId], c, planId, resources, now))
  {
    hide AssignedClaimRow, InitialHost, NewlyBound, NewHost;
    NewHostShows(c, resources, planId, now);
    if c in t.claims { AssignedShows(t.claims[c], newId, now); }
  }

  lemma AssignedShows(row: ClaimRow, h: HostId, now: Timestamp)
    ensures NewlyBound(row, AssignedClaimRow(row, h, now), h)
  {
    hide SetCondition, Lookup;
    SettingShows();
  }

  predicate NewlyBound(row: ClaimRow, later: ClaimRow, h: HostId) {
    && later == row.(observedGeneration := row.generation, retry := NO_RETRY, conditions := later.conditions)
    && Shows(later.conditions, ACCEPTED, True, RequirementsValid, PolicySatisfies, row.generation)
    && Shows(later.conditions, BOUND, True, HostAssigned, AssignedHost(h), row.generation)
    && Shows(later.conditions, READY, False, HostNotReady, HostNotReadyYet, row.generation)
  }

  predicate NewHost(row: HostRow, c: HostClaimId, planId: PlanId, resources: HostResources, now: Timestamp) {
    && row.claimId == c && row.createdAt == now && row.planId == planId && row.resources == resources
    && row.phase == HostPhase.Pending && row.resourceId.None? && row.observedAt.None? && row.retry == NO_RETRY
    && Shows(row.conditions, READY, False, ProviderResourcePending, NoResourceReady, 1)
  }

  lemma NewHostShows(c: HostClaimId, resources: HostResources, planId: PlanId, now: Timestamp)
    ensures NewHost(InitialHost(c, resources, planId, now), c, planId, resources, now)
  {}

  /** A new claim is made exactly for an unknown ID and a storable spec: it is live,
      not evaluated, not bound and not ready, and nothing else is touched. */
  lemma CreationShows(t: Tables, id: HostClaimId, spec: HostResources, now: Timestamp)
    ensures var r := CreateClaim(t, id, spec, now);
            var u := r.tables;
            && (u != t <==> Storable(spec) && id !in t.claims)
            && (r.result == Err(InvalidArgument) <==>
                  || spec.vcpus == 0 || spec.memoryBytes == 0 || spec.storageBytes == 0
                  || spec.memoryBytes > 0x7FFF_FFFF_FFFF_FFFF || spec.storageBytes > 0x7FFF_FFFF_FFFF_FFFF)
            && (u != t ==>
                  && id in u.claims && u == t.(claims := t.claims[id := u.claims[id]])
                  && r.result == Ok(ClaimRecord(id, u.claims[id], None)) && NewClaim(u.claims[id], spec, now))
  {
    hide InitialClaim, NewClaim;
    NewClaimShows(spec, now);
    if id !in t.claims { assert CreateClaim(t, id, spec, now).tables.claims != t.claims || !Storable(spec); }
  }

  predicate NewClaim(row: ClaimRow, spec: HostResources, now: Timestamp) {
    && row.spec == spec && row.createdAt == now && row.deletionTimestamp.None? && row.generation == 1
    && row.observedGeneration == 0 && row.retry == NO_RETRY
    && Shows(row.conditions, ACCEPTED, Unknown, PendingEvaluation, NotEvaluatedYet, 0)
    && Shows(row.conditions, BOUND, False, HostPending, NoHostAssigned, 0)
    && Shows(row.conditions, READY, False, HostNotReady, NoReadyHost, 0)
  }

  lemma NewClaimShows(spec: HostResources, now: Timestamp)
    ensures NewClaim(InitialClaim(spec, now), spec, now)
  {
    var cs := InitialClaim(spec, now).conditions;
    assert cs[1..][1..] == [cs[2]];
    assert Lookup(cs, BOUND) == Lookup(cs[1..], BOUND);
    assert Lookup(cs, READY) == Lookup(cs[1..], READY) == Lookup(cs[1..][1..], READY);
  }

  /** The first release sets the deletion time and shows it on Ready; the other
      conditions keep, a second release changes nothing, and an unknown ID fails. */
  lemma ReleaseShows(t: Tables, id: HostClaimId, now: Timestamp)
    ensures var r := MarkClaimDeleting(t, id, now);
            var u := r.tables;
            && (r.result.Ok? <==> id in t.claims) && (r.result.Err? ==> r.result.error == NotFound)
            && (r.result.Ok? ==> r.result.value == ClaimRecord(id, u.claims[id], HostOf(t, id)))
            && (u != t <==> id in t.claims && t.claims[id].deletionTimestamp.None?)
            && (u != t ==>
                  && id in u.claims && u == t.(claims := t.claims[id := u.claims[id]])
                  && NewlyReleased(t.claims[id], u.claims[id], now)
                  && (forall kind :: kind != READY ==>
                        Lookup(u.claims[id].conditions, kind) == Lookup(t.claims[id].conditions, kind)))
  {
    hide SetCondition, Lookup;
    SettingShows();
  }

  predicate NewlyReleased(row: ClaimRow, later: ClaimRow, now: Timestamp) {
    && later == row.(deletionTimestamp := Some(now), observedGeneration := row.generation, retry := NO_RETRY,
                     conditions := later.conditions)
    && Shows(later.conditions, READY, False, DeletionRequested, BeingReleased, row.generation)
  }
}
