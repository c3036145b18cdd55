/** Every step keeps the stored rows telling the truth, against any provider. */
module StatusSteps {
  import opened Wrappers
  import opened Domain
  import opened Provider
  import opened Tables
  import opened Protocol
  import opened Invariants
  import opened Status
  import T = Transitions

  /* ---------- frames ---------- */

  lemma Later(row: HostRow, released: bool, clock: Timestamp, later: Timestamp)
    requires HostTells(row, released, clock) && clock <= later
    ensures HostTells(row, released, later) && HostTells(row, true, later)
  {
    hide Lookup;
  }

  lemma ClaimLater(r: ClaimRecord, clock: Timestamp, later: Timestamp)
    requires ClaimTells(r, clock) && clock <= later
    ensures ClaimTells(r, later)
  {
    hide Lookup, AcceptedFits, BoundFits, ClaimReadyFits, GenerationFits;
  }

  lemma SameOwner(t: Tables, u: Tables, id: HostClaimId)
    requires Schema(t) && Schema(u) && forall h :: Owns(t, h, id) <==> Owns(u, h, id)
    ensures HostOf(t, id) == HostOf(u, id)
  {
    if HostOf(t, id).Some? { HostOfIs(u, HostOf(t, id).value); }
    if HostOf(u, id).Some? { HostOfIs(t, HostOf(u, id).value); }
  }

  /** From t to u, only this claim and its host are written, made or removed. */
  ghost predicate OthersKept(t: Tables, u: Tables, id: HostClaimId) {
    && (forall x :: x in u.claims && x != id ==> x in t.claims && u.claims[x] == t.claims[x])
    && (forall h :: h in u.hosts && u.hosts[h].claimId != id ==> h in t.hosts && u.hosts[h] == t.hosts[h])
    && (forall h :: h in t.hosts && t.hosts[h].claimId != id && t.hosts[h].claimId in u.claims ==>
          h in u.hosts && u.hosts[h] == t.hosts[h])
  }

  lemma RecordKept(t: Tables, u: Tables, id: HostClaimId, x: HostClaimId)
    requires Schema(t) && Schema(u) && OthersKept(t, u, id) && x in u.claims && x != id
    ensures x in t.claims && RecordOf(u, x) == RecordOf(t, x)
  {
    forall h ensures Owns(t, h, x) <==> Owns(u, h, x) {}
    SameOwner(t, u, x);
  }

  lemma HostRowKept(t: Tables, u: Tables, clock: Timestamp, id: HostClaimId, h: HostId)
    requires Schema(u) && OthersKept(t, u, id) && h in u.hosts && u.hosts[h].claimId != id
    requires h in t.hosts && HostRowTells(t, h, clock)
    ensures HostRowTells(u, h, clock)
  {
    hide HostTells;
  }

  /** The tables after a write to one claim and its host. */
  lemma TablesStillTell(t: Tables, u: Tables, clock: Timestamp, id: HostClaimId)
    requires Schema(t) && Schema(u) && TablesTell(t, clock) && OthersKept(t, u, id)
    requires id in u.claims ==> ClaimTells(RecordOf(u, id), clock)
    requires forall h :: Owns(u, h, id) ==> HostRowTells(u, h, clock)
    ensures TablesTell(u, clock)
  {
    hide ClaimTells, HostRowTells, RecordOf, Schema;
    forall x | x in u.claims ensures ClaimTells(RecordOf(u, x), clock) {
      if x != id { RecordKept(t, u, id, x); }
    }
    forall h | h in u.hosts ensures HostRowTells(u, h, clock) {
      if u.hosts[h].claimId == id { assert Owns(u, h, id); } else { HostRowKept(t, u, clock, id, h); }
    }
  }

  lemma OwnerIs(t: Tables, r: ClaimRecord)
    requires Schema(t) && Agrees(t, r)
    ensures HostOf(t, r.id) == r.hostId
  {
    if r.hostId.Some? { HostOfIs(t, r.hostId.value); }
    if HostOf(t, r.id).Some? { assert Owns(t, HostOf(t, r.id).value, r.id); }
  }

  /* ---------- steps of the environment ---------- */

  lemma ClockKeepsTells(c: Core, clock: Timestamp)
    requires AllTells(c) && c.clock <= clock
    ensures AllTells(c.(clock := clock))
  {
    hide ClaimTells, HostTells, RecordOf, Mirrors;
    forall r | ClaimTells(r, c.clock) ensures ClaimTells(r, clock) { ClaimLater(r, c.clock, clock); }
    forall row, released | HostTells(row, released, c.clock) ensures HostTells(row, released, clock) {
      Later(row, released, c.clock, clock);
    }
  }

  lemma CreateClaimTells(t: Tables, id: HostClaimId, spec: HostResources, now: Timestamp)
    requires Schema(t) && TablesTell(t, now)
    ensures TablesTell(CreateClaim(t, id, spec, now).tables, now)
  {
    hide ClaimTells, HostTells, InitialClaim, TablesTell;
    var u := CreateClaim(t, id, spec, now).tables;
    if u != t {
      TransactionsKeepSchema(t, id, spec, ClaimRecord(id, u.claims[id], None),
                             HostRecord(0, InitialHost(0, spec, 0, now)),
                             0, 0, now);
      InitialTells(id, spec, 0, spec, 0, now);
      assert forall h :: h in u.hosts ==> !Owns(u, h, id);
      TablesStillTell(t, u, now, id);
    }
  }

  lemma MarkDeletingTells(t: Tables, id: HostClaimId, now: Timestamp)
    requires Schema(t) && TablesTell(t, now)
    ensures TablesTell(MarkClaimDeleting(t, id, now).tables, now)
  {
    hide ClaimTells, HostTells, DeletionRow;
    var u := MarkClaimDeleting(t, id, now).tables;
    if u != t {
      DeletionRowTells(RecordOf(t, id), now);
      SameOwner(t, u, id);
      forall h | Owns(u, h, id) ensures HostRowTells(u, h, now) {
        assert HostRowTells(t, h, now);
        Later(t.hosts[h], false, now, now);
        DeletionRowKeeps(t.claims[id], now);
      }
      TablesStillTell(t, u, now, id);
    }
  }

  lemma DeletionRowKeeps(row: ClaimRow, now: Timestamp)
    ensures DeletionRow(row, now).createdAt == row.createdAt && Released(DeletionRow(row, now))
  {}

  lemma RpcKeepsTells(c: Core, a: Action, c': Core)
    requires Safe(c) && AllTells(c) && Step(c, a, c') && (a.RpcCreate? || a.RpcDelete?)
    ensures AllTells(c')
  {
    hide ClaimTells, HostTells, TablesTell, Mirrors, CreateClaim, MarkClaimDeleting, WorkerOk;
    RpcChanges(c, a, c');
    if a.RpcCreate? {
      CreateClaimTells(c.tables, a.id, a.spec, c.clock);
    } else {
      MarkDeletingTells(c.tables, a.id, c.clock);
    }
  }

  lemma ListedTells(c: Core, s: seq<ClaimRecord>, c': Core)
    requires c.worker.Listing? && IsListing(c.tables, s) && c' == AfterList(c, s)
    requires Safe(c) && AllTells(c)
    ensures AllTells(c')
  {
    hide ClaimTells, HostTells, WorkerOk;
    var t := c.tables;
    forall k | 0 <= k < |s|
      ensures ClaimTells(s[k], c.clock)
      ensures s[k].hostId.Some? && s[k].hostId.value in t.hosts ==>
                HostTells(t.hosts[s[k].hostId.value], Released(s[k].row), c.clock)
    {
      assert s[k] == RecordOf(t, s[k].id);
      if s[k].hostId.Some? { assert HostRowTells(t, s[k].hostId.value, c.clock); }
    }
  }

  /* ---------- steps of the worker ---------- */

  /** What is known of the claim and host the worker holds. */
  lemma CopiesTell(c: Core)
    requires Safe(c) && AllTells(c) && c.worker.Busy?
    requires c.worker.point.Observe? || c.worker.point.Create? || c.worker.point.Delete? || c.worker.point.Select?
    ensures ClaimTells(c.worker.point.claim, c.clock)
    ensures c.worker.pass.now <= c.clock && (c.worker.pass.live <==> !Released(c.worker.point.claim.row))
    ensures !c.worker.point.Select? ==>
              && c.worker.point.claim.hostId == Some(c.worker.point.host.id)
              && HostTells(c.worker.point.host.row, !c.worker.pass.live, c.clock)
  {
    hide ClaimTells, HostTells, TablesTell, TablesOk;
  }

  lemma ObserveTells(c: Core, obs: Observed, c': Core)
    requires At(c, DoObserve(obs)) && c' == AfterObserve(c, obs)
    requires Safe(c) && AllTells(c)
    ensures AllTells(c')
  {
    hide ClaimTells, HostTells, TablesTell, PassTells, Mirrors, OnLiveObservation, OnDeletingObservation, TablesOk;
    var p, claim, host := c.worker.pass, c.worker.point.claim, c.worker.point.host;
    CopiesTell(c);
    if p.live {
      LiveObservationTells(claim, host, obs, p.now, c.clock);
    } else {
      DeletingObservationTells(claim, host, obs, p.now, c.clock);
    }
  }

  predicate SaveTells(point: Point, released: bool, clock: Timestamp) {
    && point.Save? && ClaimTells(point.claim, clock) && HostTells(point.host.row, released, clock)
    && (point.after.ThenPersist? ==> Mirrors(point.claim.row.conditions, point.host.row.conditions))
  }

  lemma LiveObservationTells(claim: ClaimRecord, host: HostRecord, obs: Observed, nowMs: i64, now: Timestamp)
    requires ClaimTells(claim, now) && claim.hostId == Some(host.id) && !Released(claim.row) && nowMs <= now
    requires HostTells(host.row, false, now) && host.row.phase != HostPhase.Failed
    ensures SaveTells(OnLiveObservation(claim, host, obs, nowMs, now), false, now)
  {
    hide ClaimTells, HostTells, Mirrors, T.ApplyObservation, T.MarkProviderAbsent, T.MarkHostFailed,
         T.ScheduleHostError, T.IsStable;
    match obs
    case Ok(Present(r)) =>
      if host.row.resourceId.Some? && host.row.resourceId.value != r.id {
        FailedTells(claim, host, ProviderOwnershipConflict, OwnershipMismatch(host.row.resourceId.value, r.id), now);
      } else {
        ApplyTellsClaim(claim, host, r, now);
        ApplyTellsHost(claim, host, r, now);
        ApplyMirrors(claim, host, r, now);
      }
    case Ok(Absent) =>
      AbsentTells(claim, host, now);
      if host.row.phase == HostPhase.Pending { IntentTells(host, now); }
    case Err(e) => ErrorTells(claim, host, e, nowMs, now);
  }

  lemma IntentTells(host: HostRecord, now: Timestamp)
    requires HostTells(host.row, false, now) && host.row.phase == HostPhase.Pending
    ensures HostTells(host.row.(phase := HostPhase.Provisioning, retry := NO_RETRY), false, now)
  {
    hide Lookup;
  }

  lemma DeletingObservationTells(claim: ClaimRecord, host: HostRecord, obs: Observed, nowMs: i64, now: Timestamp)
    requires ClaimTells(claim, now) && claim.hostId == Some(host.id) && Released(claim.row) && nowMs <= now
    requires HostTells(host.row, true, now)
    ensures var next := OnDeletingObservation(claim, host, obs, nowMs, now);
            next.Finalize? || SaveTells(next, true, now)
  {
    hide ClaimTells, HostTells, Mirrors, T.MarkHostFailed, T.ScheduleRetryOnly;
    match obs
    case Ok(Absent) =>
    case Ok(Present(r)) =>
      if host.row.resourceId.Some? && host.row.resourceId.value != r.id {
        FailedTells(claim, host, ProviderOwnershipConflict, OwnershipMismatch(host.row.resourceId.value, r.id), now);
        FailedKeepsConditions(claim, host, host.row.resourceId.value, r.id, now);
      } else {
        DeletingTells(host, r.id, now);
      }
    case Err(e) => RetryOnlyTells(host, e, nowMs, now);
  }

  lemma DeletingTells(host: HostRecord, r: ResourceId, now: Timestamp)
    requires HostTells(host.row, true, now) && (host.row.resourceId.Some? ==> host.row.resourceId.value == r)
    ensures HostTells(host.row.(phase := HostPhase.Deleting, resourceId := Some(r), observedAt := Some(now),
                                retry := NO_RETRY), true, now)
  {
    hide Lookup;
  }

  lemma CreateTells(c: Core, creation: Creation, r: ResourceId, c': Core)
    requires At(c, DoCreate(creation, r)) && c' == AfterCreate(c, creation)
    requires Safe(c) && AllTells(c)
    ensures AllTells(c')
  {
    hide ClaimTells, HostTells, TablesTell, PassTells, Mirrors, OnCreation, TablesOk;
    CopiesTell(c);
    CreationTells(c.worker.point.claim, c.worker.point.host, creation, c.worker.pass.now, c.clock);
  }

  lemma CreationTells(claim: ClaimRecord, host: HostRecord, creation: Creation, nowMs: i64, now: Timestamp)
    requires ClaimTells(claim, now) && claim.hostId == Some(host.id) && !Released(claim.row) && nowMs <= now
    requires HostTells(host.row, false, now) && host.row.phase == HostPhase.Provisioning
    requires host.row.resourceId.None? && host.row.retry == NO_RETRY
    ensures var b := OnCreation(claim, host, creation, nowMs, now);
            && ClaimTells(b.claim, now) && HostTells(b.host.row, false, now)
            && Mirrors(b.claim.row.conditions, b.host.row.conditions)
  {
    hide ClaimTells, HostTells, Mirrors, T.ApplyObservation, T.MarkOutcomeUnknown, T.ScheduleHostError;
    match creation
    case Ok(Created(r)) =>
      ApplyTellsClaim(claim, host, r, now);
      ApplyTellsHost(claim, host, r, now);
      ApplyMirrors(claim, host, r, now);
    case Ok(OutcomeUnknown) => UnknownTells(claim, host, nowMs, now);
    case Err(e) => ErrorTells(claim, host, e, nowMs, now);
  }

  lemma DeleteTells(c: Core, deletion: Deletion, c': Core)
    requires At(c, DoDelete(deletion)) && c' == AfterDelete(c, deletion)
    requires Safe(c) && AllTells(c)
    ensures AllTells(c')
  {
    hide ClaimTells, HostTells, TablesTell, PassTells, Mirrors, OnDeletion, TablesOk;
    CopiesTell(c);
    DeletedTells(c.worker.point.host, deletion, c.worker.pass.now, c.clock);
  }

  lemma DeletedTells(host: HostRecord, deletion: Deletion, nowMs: i64, now: Timestamp)
    requires HostTells(host.row, true, now) && nowMs <= now
    requires host.row.phase == HostPhase.Deleting && host.row.retry == NO_RETRY
    ensures HostTells(OnDeletion(host, deletion, nowMs).row, true, now)
  {
    hide Lookup, T.ScheduleRetryOnly;
    if deletion.Err? { RetryOnlyTells(host, deletion.error, nowMs, now); }
  }

  lemma SelectTells(c: Core, selected: Selected, c': Core)
    requires At(c, DoSelect(selected)) && c' == AfterSelect(c, selected)
    requires Safe(c) && AllTells(c)
    ensures AllTells(c')
  {
    hide ClaimTells, HostTells, TablesTell, Mirrors, T.MarkUnsatisfiable, T.ScheduleClaimError, TablesOk;
    var claim := c.worker.point.claim;
    CopiesTell(c);
    UnsatisfiableTells(claim, c.clock);
    UnsatisfiableKeeps(claim, c.clock);
    if selected.Err? {
      match selected.error
      case Definitive(m) => RejectionTells(claim, m, c.worker.pass.now, c.clock);
      case Transient(m) => PostponementTells(claim, m, c.worker.pass.now, c.clock);
    }
  }

  lemma UnsatisfiableKeeps(claim: ClaimRecord, now: Timestamp)
    ensures T.MarkUnsatisfiable(claim, now).claim.hostId == claim.hostId
  {}

  lemma FailedKeepsConditions(claim: ClaimRecord, host: HostRecord, recorded: ResourceId, found: ResourceId,
                              now: Timestamp)
    ensures var b := T.MarkHostFailed(claim, host, ProviderOwnershipConflict, OwnershipMismatch(recorded, found), now);
            var row := b.host.row.(retry := b.host.row.retry.(nextReconcileAt := Some(I64_MAX)));
            row.conditions == b.host.row.conditions
  {}

  /* ---------- steps that write ---------- */

  /** What a save that succeeds writes, and into which record of the snapshot. */
  lemma SavingIs(c: Core)
    requires Safe(c) && At(c, DoSave) && SaveHost(c.tables, c.worker.point.host).result.Ok?
    ensures var t, p, claim, host := c.tables, c.worker.pass, c.worker.point.claim, c.worker.point.host;
            var u := SaveHost(t, host).tables;
            && Schema(t) && Schema(u) && claim.hostId == Some(host.id) && Owns(t, host.id, claim.id)
            && u == t.(hosts := t.hosts[host.id := host.row]) && SameHost(host.row, t.hosts[host.id])
            && claim.id in t.claims && (!p.live ==> Released(t.claims[claim.id]))
            && p.i < |p.snapshot| && (p.live <==> !Released(p.snapshot[p.i].row))
            && (forall k :: 0 <= k < |p.snapshot| && p.snapshot[k].hostId == Some(host.id) ==> k == p.i)
  {
    hide SaveOk, LiveHostOk, ClaimOk, DeletionsFirst, StatusOk;
    var t, p, host := c.tables, c.worker.pass, c.worker.point.host;
    SaveHostKeepsSchema(t, host);
    assert Agrees(t, p.snapshot[p.i]);
    forall k | 0 <= k < |p.snapshot| && p.snapshot[k].hostId == Some(host.id) ensures k == p.i {
      assert Agrees(t, p.snapshot[k]);
    }
  }

  lemma SavingTells(c: Core)
    requires Safe(c) && AllTells(c) && At(c, DoSave) && SaveHost(c.tables, c.worker.point.host).result.Ok?
    ensures var u := SaveHost(c.tables, c.worker.point.host).tables;
            && TablesTell(u, c.clock) && PassTells(u, c.clock, c.worker.pass)
            && c.worker.point.host.id in u.hosts && u.hosts[c.worker.point.host.id] == c.worker.point.host.row
  {
    hide Safe, ClaimTells, HostTells, Mirrors, SaveHost, Schema, TablesTell;
    var t, p, claim, host := c.tables, c.worker.pass, c.worker.point.claim, c.worker.point.host;
    SavingIs(c);
    Later(host.row, !p.live, c.clock, c.clock);
    HostWriteTells(t, SaveHost(t, host).tables, c.clock, claim.id, host);
  }

  lemma HostWriteTells(t: Tables, u: Tables, clock: Timestamp, id: HostClaimId, host: HostRecord)
    requires Schema(t) && Schema(u) && TablesTell(t, clock) && Owns(t, host.id, id) && host.row.claimId == id
    requires u == t.(hosts := t.hosts[host.id := host.row]) && host.row.createdAt == t.hosts[host.id].createdAt
    requires id in t.claims && HostTells(host.row, Released(t.claims[id]), clock)
    ensures TablesTell(u, clock)
  {
    hide ClaimTells, HostTells;
    forall h ensures Owns(t, h, id) <==> Owns(u, h, id) {}
    SameOwner(t, u, id);
    assert HostRowTells(t, host.id, clock);
    TablesStillTell(t, u, clock, id);
  }

  lemma SaveKeepsTells(c: Core, c': Core)
    requires At(c, DoSave) && c' == AfterSaving(c)
    requires Safe(c) && AllTells(c)
    ensures AllTells(c')
  {
    hide ClaimTells, HostTells, Mirrors, TablesTell, PassTells, Safe;
    if SaveHost(c.tables, c.worker.point.host).result.Ok? {
      SavingTells(c);
      HoldsHost(c);
    }
  }

  lemma HoldsHost(c: Core)
    requires Safe(c) && c.worker.Busy? && c.worker.point.Save?
    ensures c.worker.point.claim.hostId == Some(c.worker.point.host.id)
  {
    hide TablesOk, PassOk, SaveOk;
  }

  /** What a status that is not superseded writes. */
  lemma PersistingIs(c: Core)
    requires Safe(c) && At(c, DoPersist) && Current(c.tables, c.worker.point.claim)
    ensures var t, claim := c.tables, c.worker.point.claim;
            var u := SaveClaimStatus(t, claim);
            && Schema(t) && Schema(u) && claim.id in t.claims
            && u == t.(claims := t.claims[claim.id := claim.row]) && SameClaim(claim.row, t.claims[claim.id])
            && claim.row.deletionTimestamp == t.claims[claim.id].deletionTimestamp
            && HostOf(t, claim.id) == claim.hostId
  {
    hide LiveHostOk, ClaimOk, DeletionsFirst, StatusOk, HostOf;
    var t, p := c.tables, c.worker.pass;
    SaveStatusKeepsSchema(t, c.worker.point.claim);
    assert Agrees(t, p.snapshot[p.i]);
    OwnerIs(t, p.snapshot[p.i]);
  }

  lemma PersistKeepsTells(c: Core, c': Core)
    requires At(c, DoPersist) && c' == AfterPersist(c)
    requires Safe(c) && AllTells(c)
    ensures AllTells(c')
  {
    hide Safe, ClaimTells, HostTells, TablesTell, Mirrors;
    var claim := c.worker.point.claim;
    if Current(c.tables, claim) {
      PersistingIs(c);
      ClaimWriteTells(c.tables, SaveClaimStatus(c.tables, claim), c.clock, claim);
    }
  }

  lemma ClaimWriteTells(t: Tables, u: Tables, clock: Timestamp, claim: ClaimRecord)
    requires Schema(t) && Schema(u) && TablesTell(t, clock) && claim.id in t.claims
    requires u == t.(claims := t.claims[claim.id := claim.row])
    requires claim.row.createdAt == t.claims[claim.id].createdAt
    requires claim.row.deletionTimestamp == t.claims[claim.id].deletionTimestamp
    requires ClaimTells(claim, clock) && HostOf(t, claim.id) == claim.hostId
    ensures TablesTell(u, clock)
  {
    hide ClaimTells, HostTells;
    SameOwner(t, u, claim.id);
    forall h | Owns(u, h, claim.id) ensures HostRowTells(u, h, clock) {
      assert HostRowTells(t, h, clock);
    }
    TablesStillTell(t, u, clock, claim.id);
  }

  lemma FinalizeKeepsTells(c: Core, c': Core)
    requires At(c, DoFinalize) && c' == AfterFinalize(c)
    requires Safe(c) && AllTells(c)
    ensures AllTells(c')
  {
    hide ClaimTells, HostTells, WorkerOk, PointOk;
    var t, id := c.tables, c.worker.point.claim.id;
    FinalizeKeepsSchema(t, id);
    if id in t.claims { TablesStillTell(t, FinalizeClaim(t, id).tables, c.clock, id); }
  }

  lemma EnsureTells(t: Tables, id: HostClaimId, plan: Plan, newId: HostId, now: Timestamp)
    requires Schema(t) && TablesTell(t, now) && newId !in t.hosts
    ensures TablesTell(EnsureHost(t, id, plan.id, plan.resources, newId, now).tables, now)
  {
    hide ClaimTells, HostTells, TablesTell, Schema, NewlyBound, NewHost, AssignedClaimRow, InitialHost, EnsureHost;
    var u := EnsureHost(t, id, plan.id, plan.resources, newId, now).tables;
    EnsureHostKeepsSchema(t, id, plan.id, plan.resources, newId, now);
    EnsureBinds(t, id, plan.id, plan.resources, newId, now);
    EnsureWrites(t, id, plan, newId, now);
    if u != t { BindingTells(t, u, id, newId, now); }
  }

  lemma EnsureWrites(t: Tables, id: HostClaimId, plan: Plan, newId: HostId, now: Timestamp)
    requires newId !in t.hosts
    ensures var u := EnsureHost(t, id, plan.id, plan.resources, newId, now).tables;
            u != t ==>
              && id in t.claims && id in u.claims && u.claims[id] == AssignedClaimRow(t.claims[id], newId, now)
              && newId in u.hosts
              && u.hosts[newId] == InitialHost(id, u.hosts[newId].resources, u.hosts[newId].planId, now)
  {
    hide AssignedClaimRow;
  }

  lemma BindingTells(t: Tables, u: Tables, id: HostClaimId, h: HostId, now: Timestamp)
    requires Schema(t) && Schema(u) && TablesTell(t, now) && id in t.claims && !Released(t.claims[id])
    requires HostOf(t, id).None? && id in u.claims && h in u.hosts && h !in t.hosts
    requires u.hosts == t.hosts[h := u.hosts[h]] && u.claims == t.claims[id := u.claims[id]]
    requires u.claims[id] == AssignedClaimRow(t.claims[id], h, now)
    requires u.hosts[h] == InitialHost(id, u.hosts[h].resources, u.hosts[h].planId, now)
    ensures TablesTell(u, now)
  {
    hide ClaimTells, HostTells, AssignedClaimRow, InitialHost, Schema;
    AssignedTells(RecordOf(t, id), h, now);
    AssignedRowKeeps(t.claims[id], h, now);
    InitialTells(id, u.hosts[h].resources, h, u.hosts[h].resources, u.hosts[h].planId, now);
    NewHostIs(id, u.hosts[h].resources, u.hosts[h].planId, now);
    HostOfIs(u, h);
    assert ClaimTells(RecordOf(t, id), now);
    ClaimIsPast(RecordOf(t, id), now);
    TablesStillTell(t, u, now, id);
  }

  lemma AssignedRowKeeps(row: ClaimRow, h: HostId, now: Timestamp)
    ensures var r := AssignedClaimRow(row, h, now);
            r.createdAt == row.createdAt && r.deletionTimestamp == row.deletionTimestamp
  {}

  lemma NewHostIs(id: HostClaimId, resources: HostResources, planId: PlanId, now: Timestamp)
    ensures var row := InitialHost(id, resources, planId, now); row.claimId == id && row.createdAt == now
  {}

  lemma ClaimIsPast(r: ClaimRecord, clock: Timestamp)
    requires ClaimTells(r, clock)
    ensures r.row.createdAt <= clock
  {}

  lemma EnsureKeepsTells(c: Core, newHost: HostId, c': Core)
    requires At(c, DoEnsure(newHost)) && c' == AfterEnsure(c, newHost)
    requires Safe(c) && AllTells(c)
    ensures AllTells(c')
  {
    hide ClaimTells, HostTells, TablesTell, WorkerOk, EnsureHost;
    var claim, plan := c.worker.point.claim, c.worker.point.plan;
    EnsureTells(c.tables, claim.id, plan, newHost, c.clock);
    EnsureErrorKeeps(c.tables, claim.id, plan, newHost, c.clock);
  }

  lemma EnsureErrorKeeps(t: Tables, id: HostClaimId, plan: Plan, newId: HostId, now: Timestamp)
    ensures var r := EnsureHost(t, id, plan.id, plan.resources, newId, now); r.result.Err? ==> r.tables == t
  {}

  /* ---------- every step ---------- */

  lemma StepKeepsTells(c: Core, a: Action, c': Core)
    requires Safe(c) && AllTells(c) && Step(c, a, c')
    ensures AllTells(c')
  {
    hide Safe, AllTells, AfterSaving, AfterObserve, AfterEnsure, AfterScan, AfterFetch, AfterPersist, AfterSelect,
         AfterFinalize, AfterCreate, AfterDelete, AfterList;
    match a
    case RpcCreate(_, _) => RpcKeepsTells(c, a, c');
    case RpcDelete(_) => RpcKeepsTells(c, a, c');
    case Tick(t) => ClockKeepsTells(c, t);
    case List(s) => ListedTells(c, s, c');
    case DoObserve(obs) => ObserveTells(c, obs, c');
    case DoSave => SaveKeepsTells(c, c');
    case DoCreate(creation, r) => CreateTells(c, creation, r, c');
    case DoDelete(deletion) => DeleteTells(c, deletion, c');
    case DoPersist => PersistKeepsTells(c, c');
    case DoFinalize => FinalizeKeepsTells(c, c');
    case DoSelect(selected) => SelectTells(c, selected, c');
    case DoEnsure(h) => EnsureKeepsTells(c, h, c');
    case _ => MoveKeepsTells(c, a, c');
  }

  lemma MoveKeepsTells(c: Core, a: Action, c': Core)
    requires AllTells(c) && Step(c, a, c')
    requires || a.RpcWake? || a.Crash? || a.Restart? || a.Resume? || a.WakeSelf? || a.ListFails? || a.ScanNext?
             || a.DoFetch? || a.StorageFails?
    ensures AllTells(c')
  {
    hide ClaimTells, HostTells, TablesTell, Mirrors;
  }
}
