/** The invariant of the protocol against an arbitrary provider, and the proof
    that every step keeps it. */
module Invariants {
  import opened Wrappers
  import opened Domain
  import opened Provider
  import opened Tables
  import opened Protocol
  import T = Transitions

  /* ---------- the tables ---------- */

  predicate Released(row: ClaimRow) {
    row.deletionTimestamp.Some?
  }

  predicate ClaimOk(row: ClaimRow) {
    && row.generation == 1
    && Storable(row.spec)
    && (Released(row) ==> ReadyIs(row.conditions, False) && row.retry == NO_RETRY)
  }

  /** A deadline at most a minute away; none at all once the host has failed. */
  predicate LiveHostOk(row: HostRow, clock: Timestamp) {
    && (row.retry.nextReconcileAt.Some? ==> row.retry.nextReconcileAt.value <= clock + 60_000)
    && (row.phase == HostPhase.Failed ==> row.retry.nextReconcileAt.None?)
  }

  ghost predicate TablesOk(t: Tables, clock: Timestamp) {
    && Schema(t)
    && (forall id :: id in t.claims ==> ClaimOk(t.claims[id]))
    && (forall h :: h in t.hosts && !Released(t.claims[t.hosts[h].claimId]) ==> LiveHostOk(t.hosts[h], clock))
  }

  /* ---------- the worker's copies ---------- */

  /** The columns of a claim that no update writes. */
  predicate SameClaim(a: ClaimRow, b: ClaimRow) {
    a.generation == b.generation && a.createdAt == b.createdAt && a.spec == b.spec
  }

  /** The columns of a host that no update writes. */
  predicate SameHost(a: HostRow, b: HostRow) {
    a.claimId == b.claimId && a.createdAt == b.createdAt && a.resources == b.resources && a.planId == b.planId
  }

  /** A listed record still describes its row, except that the row may since
      have been marked for deletion or given a new status. */
  ghost predicate Agrees(t: Tables, r: ClaimRecord) {
    && r.id in t.claims
    && SameClaim(r.row, t.claims[r.id])
    && (Released(r.row) ==> t.claims[r.id].deletionTimestamp == r.row.deletionTimestamp && r.row.retry == NO_RETRY)
    && (r.hostId.Some? ==> Owns(t, r.hostId.value, r.id))
    && (r.hostId.None? ==> forall h :: h in t.hosts ==> t.hosts[h].claimId != r.id)
  }

  /** The deleting claims passed over so far have a host that is not due. */
  predicate DeletionsFirst(t: Tables, p: Pass) {
    forall k :: 0 <= k < |p.snapshot| && (p.live || k < p.i) && Released(p.snapshot[k].row) ==>
      && p.snapshot[k].hostId.Some? && p.snapshot[k].hostId.value in t.hosts
      && !t.hosts[p.snapshot[k].hostId.value].retry.IsDue(p.now)
  }

  ghost predicate PassOk(t: Tables, clock: Timestamp, p: Pass) {
    && p.now <= clock
    && p.i <= |p.snapshot|
    && (forall k :: 0 <= k < |p.snapshot| ==> Agrees(t, p.snapshot[k]))
    && (forall j, k :: 0 <= j < k < |p.snapshot| ==> p.snapshot[j].id != p.snapshot[k].id)
    && DeletionsFirst(t, p)
  }

  /** `claim` is the worker's copy of the record the pass has reached. */
  predicate CopyOk(p: Pass, claim: ClaimRecord) {
    && p.i < |p.snapshot|
    && var r := p.snapshot[p.i];
    && claim.id == r.id && claim.hostId == r.hostId
    && SameClaim(claim.row, r.row) && claim.row.deletionTimestamp == r.row.deletionTimestamp
    && (p.live <==> !Released(claim.row))
  }

  predicate HostCopyOk(t: Tables, claim: ClaimRecord, host: HostRecord) {
    && claim.hostId == Some(host.id)
    && host.id in t.hosts
    && SameHost(host.row, t.hosts[host.id])
  }

  predicate StatusOk(claim: ClaimRecord) {
    Released(claim.row) ==> ReadyIs(claim.row.conditions, False) && claim.row.retry == NO_RETRY
  }

  predicate SaveOk(t: Tables, clock: Timestamp, p: Pass, claim: ClaimRecord, host: HostRecord, after: AfterSave) {
    && host.id in t.hosts
    && (p.live ==> t.hosts[host.id].phase != HostPhase.Failed && LiveHostOk(host.row, clock))
    && match after
       case ThenCreate =>
         && p.live && t.hosts[host.id].phase == HostPhase.Pending
         && host.row.phase == HostPhase.Provisioning && host.row.resourceId.None? && host.row.retry == NO_RETRY
       case ThenDelete =>
         !p.live && host.row.phase == HostPhase.Deleting && host.row.resourceId.Some? && host.row.retry == NO_RETRY
       case ThenPersist(result) => StatusOk(claim) && (result == Idle ==> p.live)
       case ThenProgress => !p.live
  }

  ghost predicate PointOk(t: Tables, clock: Timestamp, p: Pass, point: Point)
    requires forall k :: 0 <= k < |p.snapshot| ==> p.snapshot[k].id in t.claims
  {
    match point
    case Scan => true
    case Fetch(claim) =>
      CopyOk(p, claim) && claim.hostId.Some? && claim == p.snapshot[p.i]
    case Observe(claim, host) =>
      && CopyOk(p, claim) && HostCopyOk(t, claim, host) && host.row == t.hosts[host.id]
      && host.row.retry.IsDue(p.now) && (p.live ==> host.row.phase != HostPhase.Failed)
      && claim == p.snapshot[p.i]
    case Save(claim, host, after) =>
      CopyOk(p, claim) && HostCopyOk(t, claim, host) && SaveOk(t, clock, p, claim, host, after)
    case Create(claim, host) =>
      && CopyOk(p, claim) && HostCopyOk(t, claim, host) && host.row == t.hosts[host.id]
      && p.live && host.row.phase == HostPhase.Provisioning && host.row.resourceId.None? && host.row.retry == NO_RETRY
    case Delete(claim, host) =>
      && CopyOk(p, claim) && HostCopyOk(t, claim, host) && host.row == t.hosts[host.id]
      && !p.live && host.row.phase == HostPhase.Deleting && host.row.resourceId.Some? && host.row.retry == NO_RETRY
    case Persist(claim, result) => CopyOk(p, claim) && StatusOk(claim) && (result == Idle ==> p.live)
    case Finalize(claim) => CopyOk(p, claim) && !p.live && claim == p.snapshot[p.i]
    case Select(claim) => CopyOk(p, claim) && p.live && claim.hostId.None? && claim == p.snapshot[p.i]
    case Ensure(claim, _) => CopyOk(p, claim) && p.live && claim.hostId.None?
  }

  ghost predicate WorkerOk(c: Core) {
    match c.worker
    case Down => true
    case Parked => true
    case LimitReached => true
    case Listing(used, now) => used < MAX_STEPS_PER_WAKE && now <= c.clock
    case Busy(used, p, point) =>
      && used < MAX_STEPS_PER_WAKE
      && PassOk(c.tables, c.clock, p)
      && PointOk(c.tables, c.clock, p, point)
  }

  ghost predicate Safe(c: Core) {
    TablesOk(c.tables, c.clock) && WorkerOk(c)
  }

  /* ---------- steps of the environment ---------- */

  /** What an RPC may do to the tables: add claims, or mark live claims. */
  ghost predicate RpcChange(t: Tables, u: Tables, clock: Timestamp) {
    && u.hosts == t.hosts && u.issued == t.issued
    && (forall id :: id in t.claims ==>
          && id in u.claims && SameClaim(t.claims[id], u.claims[id])
          && (Released(t.claims[id]) ==> u.claims[id] == t.claims[id]))
    && (forall id :: id in u.claims ==>
          && ClaimOk(u.claims[id])
          && ((id in t.claims && u.claims[id] == t.claims[id])
              || (ReadyIs(u.claims[id].conditions, False) && u.claims[id].retry == NO_RETRY)))
  }

  lemma DeletionRowOk(row: ClaimRow, now: Timestamp)
    ensures ReadyIs(DeletionRow(row, now).conditions, False)
  {
    SetConditionRefinesMapUpdate(row.conditions,
                                 Condition(READY, False, DeletionRequested, BeingReleased, row.generation, now), READY);
  }

  lemma CreateClaimChanges(t: Tables, id: HostClaimId, spec: HostResources, clock: Timestamp)
    requires forall x :: x in t.claims ==> ClaimOk(t.claims[x])
    ensures RpcChange(t, CreateClaim(t, id, spec, clock).tables, clock)
  {
    hide SetCondition, ReadyIs;
    InitialConditions(spec, spec, id, 0, clock);
  }

  lemma MarkDeletingChanges(t: Tables, id: HostClaimId, clock: Timestamp)
    requires forall x :: x in t.claims ==> ClaimOk(t.claims[x])
    ensures RpcChange(t, MarkClaimDeleting(t, id, clock).tables, clock)
  {
    hide SetCondition, ReadyIs;
    if id in t.claims { DeletionRowOk(t.claims[id], clock); }
  }

  lemma RpcChanges(c: Core, a: Action, c': Core)
    requires Safe(c) && Step(c, a, c') && (a.RpcCreate? || a.RpcDelete?)
    ensures RpcChange(c.tables, c'.tables, c.clock) && c'.worker == c.worker
  {
    hide CreateClaim, MarkClaimDeleting, RpcChange, Schema, WorkerOk, ClaimOk;
    if a.RpcDelete? { MarkDeletingChanges(c.tables, a.id, c.clock); }
    if a.RpcCreate? { CreateClaimChanges(c.tables, a.id, a.spec, c.clock); }
  }

  lemma RpcKeepsSafe(c: Core, a: Action, c': Core)
    requires Safe(c) && Step(c, a, c') && (a.RpcCreate? || a.RpcDelete?)
    ensures Safe(c')
  {
    RpcChanges(c, a, c');
    var t, u := c.tables, c'.tables;
    if c.worker.Busy? {
      forall k | 0 <= k < |c.worker.pass.snapshot| ensures Agrees(u, c.worker.pass.snapshot[k]) {
        assert Agrees(t, c.worker.pass.snapshot[k]);
      }
    }
  }

  lemma ClockKeepsSafe(c: Core, clock: Timestamp)
    requires Safe(c) && c.clock <= clock
    ensures Safe(c.(clock := clock))
  {
    var c' := c.(clock := clock);
    if c.worker.Busy? {
      assert PassOk(c'.tables, c'.clock, c'.worker.pass);
      assert PointOk(c'.tables, c'.clock, c'.worker.pass, c'.worker.point);
    }
  }

  /* ---------- steps that leave the tables alone ---------- */

  lemma EndPassKeepsSafe(c: Core, end: PassEnd)
    requires TablesOk(c.tables, c.clock) && c.worker.Busy? && c.worker.used < MAX_STEPS_PER_WAKE
    ensures Safe(EndPass(c, end)) && EndPass(c, end).tables == c.tables
  {}

  /** The scan may move on: the claim is live, or its host is not due. */
  lemma EndClaimKeepsSafe(c: Core, result: PassResult)
    requires TablesOk(c.tables, c.clock) && c.worker.Busy? && c.worker.used < MAX_STEPS_PER_WAKE
    requires PassOk(c.tables, c.clock, c.worker.pass)
    requires result == Idle ==>
               var p := c.worker.pass;
               p.i < |p.snapshot| && DeletionsFirst(c.tables, p.(i := p.i + 1))
    ensures Safe(EndClaim(c, result)) && EndClaim(c, result).tables == c.tables
  {
    if result == Idle {
      var p := c.worker.pass;
      assert PassOk(c.tables, c.clock, p.(i := p.i + 1));
    }
  }

  lemma ListKeepsSafe(c: Core, s: seq<ClaimRecord>)
    requires Safe(c) && c.worker.Listing? && IsListing(c.tables, s)
    ensures Safe(AfterList(c, s))
  {
    forall k | 0 <= k < |s| ensures Agrees(c.tables, s[k]) {
      assert s[k] == RecordOf(c.tables, s[k].id);
    }
    forall j, k | 0 <= j < k < |s| ensures s[j].id != s[k].id {
      assert Before(s[j], s[k]);
    }
  }

  lemma ScanKeepsSafe(c: Core)
    requires Safe(c) && At(c, ScanNext)
    ensures Safe(AfterScan(c))
  {
    hide SetCondition, TablesOk, ReadyIs;
    var p := c.worker.pass;
    if p.i >= |p.snapshot| {
      if p.live {
        EndPassKeepsSafe(c, Finished(Idle));
      } else {
        assert PassOk(c.tables, c.clock, p.(live := true, i := 0));
      }
    } else {
      DispatchKeepsSafe(c);
    }
  }

  lemma DispatchKeepsSafe(c: Core)
    requires Safe(c) && At(c, ScanNext) && c.worker.pass.i < |c.worker.pass.snapshot|
    ensures Safe(AfterScan(c))
  {
    hide SetCondition, TablesOk, ReadyIs, Schema;
    var p := c.worker.pass;
    var claim := p.snapshot[p.i];
    assert Agrees(c.tables, claim);
    if p.live || !Released(claim.row) {
      EndClaimKeepsSafe(c, Idle);
    }
  }

  lemma FetchKeepsSafe(c: Core)
    requires Safe(c) && At(c, DoFetch)
    ensures Safe(AfterFetch(c))
    ensures var claim := c.worker.point.claim;
            claim.hostId.value in c.tables.hosts
  {
    var p, claim := c.worker.pass, c.worker.point.claim;
    assert Agrees(c.tables, p.snapshot[p.i]);
    var host := HostRecord(claim.hostId.value, c.tables.hosts[claim.hostId.value]);
    if !host.row.retry.IsDue(p.now) || (p.live && host.row.phase == HostPhase.Failed) {
      EndClaimKeepsSafe(c, Idle);
    }
  }

  lemma LiveObservationPoint(c: Core, obs: Observed)
    requires Safe(c) && At(c, DoObserve(obs)) && c.worker.pass.live
    ensures var p, point := c.worker.pass, c.worker.point;
            PointOk(c.tables, c.clock, p, OnLiveObservation(point.claim, point.host, obs, p.now, c.clock))
  {
    hide SetCondition, TablesOk, RetryDeadline;
    var p, claim, host := c.worker.pass, c.worker.point.claim, c.worker.point.host;
    RetryDeadlineBounded(p.now, SaturatingIncrement(host.row.retry.attempt), 0);
    assert Agrees(c.tables, p.snapshot[p.i]);
    match obs
    case Ok(Present(r)) =>
    case Ok(Absent) =>
    case Err(e) =>
  }

  lemma DeletingObservationPoint(c: Core, obs: Observed)
    requires Safe(c) && At(c, DoObserve(obs)) && !c.worker.pass.live
    ensures var p, point := c.worker.pass, c.worker.point;
            PointOk(c.tables, c.clock, p, OnDeletingObservation(point.claim, point.host, obs, p.now, c.clock))
  {
    var p := c.worker.pass;
    assert Agrees(c.tables, p.snapshot[p.i]);
  }

  lemma ObserveKeepsSafe(c: Core, obs: Observed)
    requires Safe(c) && At(c, DoObserve(obs))
    ensures Safe(AfterObserve(c, obs))
  {
    if c.worker.pass.live { LiveObservationPoint(c, obs); } else { DeletingObservationPoint(c, obs); }
  }

  lemma CreateKeepsSafe(c: Core, creation: Creation, r: ResourceId)
    requires Safe(c) && At(c, DoCreate(creation, r))
    ensures Safe(AfterCreate(c, creation))
  {
    hide SetCondition, TablesOk, RetryDeadline, DeletionsFirst, Schema;
    var p, claim, host := c.worker.pass, c.worker.point.claim, c.worker.point.host;
    RetryDeadlineBounded(p.now, SaturatingIncrement(host.row.retry.attempt), 0);
    var b := OnCreation(claim, host, creation, p.now, c.clock);
    assert PointOk(c.tables, c.clock, p, Save(b.claim, b.host, ThenPersist(Progress)));
  }

  lemma DeleteKeepsSafe(c: Core, deletion: Deletion)
    requires Safe(c) && At(c, DoDelete(deletion))
    ensures Safe(AfterDelete(c, deletion))
  {
    var p, claim, host := c.worker.pass, c.worker.point.claim, c.worker.point.host;
    assert PointOk(c.tables, c.clock, p, Save(claim, OnDeletion(host, deletion, p.now), ThenProgress));
  }

  lemma SelectKeepsSafe(c: Core, selected: Selected)
    requires Safe(c) && At(c, DoSelect(selected))
    ensures Safe(AfterSelect(c, selected))
  {
    hide SetCondition, TablesOk, T.ShowsUnsatisfiable;
    var p := c.worker.pass;
    if selected.Ok? && selected.value.None? && !T.MarkUnsatisfiable(c.worker.point.claim, c.clock).changed {
      EndClaimKeepsSafe(c, Idle);
    }
  }

  /* ---------- steps that write ---------- */

  lemma SaveKeepsTables(t: Tables, clock: Timestamp, p: Pass, claim: ClaimRecord, host: HostRecord, after: AfterSave)
    requires TablesOk(t, clock) && PassOk(t, clock, p) && CopyOk(p, claim) && HostCopyOk(t, claim, host)
    requires SaveOk(t, clock, p, claim, host, after)
    ensures var u := SaveHost(t, host).tables;
            TablesOk(u, clock) && PassOk(u, clock, p)
  {
    var u := SaveHost(t, host).tables;
    SaveHostKeepsSchema(t, host);
    assert Agrees(t, p.snapshot[p.i]);
    if u != t {
      forall k | 0 <= k < |p.snapshot| ensures Agrees(u, p.snapshot[k]) {
        assert Agrees(t, p.snapshot[k]);
      }
      forall k | 0 <= k < |p.snapshot| && p.snapshot[k].hostId == Some(host.id) ensures k == p.i {
        assert Agrees(t, p.snapshot[k]);
      }
    }
  }

  lemma SaveKeepsSafe(c: Core)
    requires Safe(c) && At(c, DoSave)
    ensures Safe(AfterSaving(c))
    ensures SaveHost(c.tables, c.worker.point.host).result != Err(NotFound)
  {
    var p, claim, host, after := c.worker.pass, c.worker.point.claim, c.worker.point.host, c.worker.point.after;
    SaveKeepsTables(c.tables, c.clock, p, claim, host, after);
    var u := SaveHost(c.tables, host);
    if u.result.Ok? {
      assert u.tables.hosts[host.id] == host.row;
      var c' := c.(tables := u.tables);
      if after.ThenProgress? {
        EndClaimKeepsSafe(Log(c', Saved(host.id, host.row)), Progress);
      }
    }
  }

  lemma PersistKeepsTables(t: Tables, clock: Timestamp, p: Pass, claim: ClaimRecord)
    requires TablesOk(t, clock) && PassOk(t, clock, p) && StatusOk(claim)
    ensures var u := SaveClaimStatus(t, claim);
            TablesOk(u, clock) && PassOk(u, clock, p)
  {
    hide LiveHostOk, ReadyIs;
    var u := SaveClaimStatus(t, claim);
    SaveStatusKeepsSchema(t, claim);
    forall k | 0 <= k < |p.snapshot| ensures Agrees(u, p.snapshot[k]) {
      assert Agrees(t, p.snapshot[k]);
    }
  }

  lemma PersistKeepsSafe(c: Core)
    requires Safe(c) && At(c, DoPersist)
    ensures Safe(AfterPersist(c))
  {
    hide TablesOk, ReadyIs;
    var p, claim, result := c.worker.pass, c.worker.point.claim, c.worker.point.result;
    PersistKeepsTables(c.tables, c.clock, p, claim);
    var u := SaveClaimStatus(c.tables, claim);
    EndClaimKeepsSafe(c.(tables := u, permit := c.permit || !Current(c.tables, claim)), result);
  }

  lemma FinalizeKeepsTables(t: Tables, clock: Timestamp, id: HostClaimId)
    requires TablesOk(t, clock)
    ensures TablesOk(FinalizeClaim(t, id).tables, clock)
  {
    hide ClaimOk, LiveHostOk;
    FinalizeKeepsSchema(t, id);
  }

  lemma FinalizeKeepsSafe(c: Core)
    requires Safe(c) && At(c, DoFinalize)
    ensures Safe(AfterFinalize(c))
    ensures FinalizeClaim(c.tables, c.worker.point.claim.id).result.Ok?
  {
    hide TablesOk, DeletionsFirst;
    var p, claim := c.worker.pass, c.worker.point.claim;
    assert Agrees(c.tables, p.snapshot[p.i]);
    FinalizeKeepsTables(c.tables, c.clock, claim.id);
  }

  lemma EnsureKeepsTables(t: Tables, clock: Timestamp, id: HostClaimId, plan: Plan, newHost: HostId)
    requires TablesOk(t, clock)
    ensures TablesOk(EnsureHost(t, id, plan.id, plan.resources, newHost, clock).tables, clock)
  {
    hide SetCondition;
    var u := EnsureHost(t, id, plan.id, plan.resources, newHost, clock).tables;
    EnsureHostKeepsSchema(t, id, plan.id, plan.resources, newHost, clock);
    if u != t {
      assert u.claims[id] == AssignedClaimRow(t.claims[id], newHost, clock);
      assert forall h :: h in u.hosts ==> h == newHost || (h in t.hosts && u.hosts[h] == t.hosts[h]);
    }
  }

  lemma EnsureKeepsSafe(c: Core, newHost: HostId)
    requires Safe(c) && At(c, DoEnsure(newHost))
    ensures Safe(AfterEnsure(c, newHost))
  {
    var p, claim, plan := c.worker.pass, c.worker.point.claim, c.worker.point.plan;
    assert Agrees(c.tables, p.snapshot[p.i]);
    var reply := EnsureHost(c.tables, claim.id, plan.id, plan.resources, newHost, c.clock);
    EnsureKeepsTables(c.tables, c.clock, claim.id, plan, newHost);
    var c' := c.(tables := reply.tables);
    match reply.result
    case Ok(_) => EndPassKeepsSafe(c', Finished(Progress));
    case Err(Conflict) => EndClaimKeepsSafe(c'.(permit := true), Idle);
    case Err(NotFound) => EndClaimKeepsSafe(c'.(permit := true), Idle);
    case Err(e) => EndPassKeepsSafe(c', Aborted(e));
  }

  /** The tables after a step, by the transaction it runs. */
  ghost function TablesAfter(c: Core, a: Action): Tables
    requires exists c' :: Step(c, a, c')
  {
    match a
    case RpcCreate(id, spec) => CreateClaim(c.tables, id, spec, c.clock).tables
    case RpcDelete(id) => MarkClaimDeleting(c.tables, id, c.clock).tables
    case DoSave => SaveHost(c.tables, c.worker.point.host).tables
    case DoPersist => SaveClaimStatus(c.tables, c.worker.point.claim)
    case DoFinalize => FinalizeClaim(c.tables, c.worker.point.claim.id).tables
    case DoEnsure(h) =>
      var claim, plan := c.worker.point.claim, c.worker.point.plan;
      EnsureHost(c.tables, claim.id, plan.id, plan.resources, h, c.clock).tables
    case _ => c.tables
  }

  lemma StepOnTables(c: Core, a: Action, c': Core)
    requires Step(c, a, c')
    ensures c'.tables == TablesAfter(c, a)
  {}

  /* ---------- every step ---------- */

  lemma StepKeepsSafe(c: Core, a: Action, c': Core)
    requires Safe(c) && Step(c, a, c')
    ensures Safe(c')
  {
    hide EnsureHost, OnLiveObservation, OnDeletingObservation;
    hide SetCondition, AfterSaving, AfterObserve, AfterEnsure, AfterScan, AfterFetch, AfterPersist, AfterSelect,
         AfterFinalize, AfterCreate, AfterDelete, AfterList;
    match a
    case RpcCreate(_, _) => RpcKeepsSafe(c, a, c');
    case RpcDelete(_) => RpcKeepsSafe(c, a, c');
    case Tick(t) => ClockKeepsSafe(c, t);
    case List(s) => ListKeepsSafe(c, s);
    case ScanNext => ScanKeepsSafe(c);
    case DoFetch => FetchKeepsSafe(c);
    case DoObserve(obs) => ObserveKeepsSafe(c, obs);
    case DoSave => SaveKeepsSafe(c);
    case DoCreate(creation, r) => CreateKeepsSafe(c, creation, r);
    case DoDelete(deletion) => DeleteKeepsSafe(c, deletion);
    case DoPersist => PersistKeepsSafe(c);
    case DoFinalize => FinalizeKeepsSafe(c);
    case DoSelect(selected) => SelectKeepsSafe(c, selected);
    case DoEnsure(h) => EnsureKeepsSafe(c, h);
    case StorageFails => EndPassKeepsSafe(c, Aborted(Internal));
    case _ =>
  }
}
