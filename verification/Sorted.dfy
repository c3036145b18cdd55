/** The condition lists that are stored and those the worker holds stay sorted by
    type without duplicates, against any provider. */
module Sorted {
  import opened Wrappers
  import opened Domain
  import opened Provider
  import opened Tables
  import opened Protocol
  import opened Invariants
  import opened Steps
  import T = Transitions

  predicate TablesSorted(t: Tables) {
    && (forall id :: id in t.claims ==> StrictlySortedByKind(t.claims[id].conditions))
    && (forall h :: h in t.hosts ==> StrictlySortedByKind(t.hosts[h].conditions))
  }

  predicate ClaimSorted(claim: ClaimRecord) {
    StrictlySortedByKind(claim.row.conditions)
  }

  predicate BothSorted(claim: ClaimRecord, host: HostRecord) {
    StrictlySortedByKind(claim.row.conditions) && StrictlySortedByKind(host.row.conditions)
  }

  predicate PointSorted(point: Point) {
    match point
    case Fetch(claim) => ClaimSorted(claim)
    case Observe(claim, host) => BothSorted(claim, host)
    case Save(claim, host, _) => BothSorted(claim, host)
    case Create(claim, host) => BothSorted(claim, host)
    case Delete(claim, host) => BothSorted(claim, host)
    case Persist(claim, _) => ClaimSorted(claim)
    case Select(claim) => ClaimSorted(claim)
    case _ => true
  }

  predicate AllSorted(c: Core) {
    && TablesSorted(c.tables)
    && (c.worker.Busy? ==>
          && (forall k :: 0 <= k < |c.worker.pass.snapshot| ==> ClaimSorted(c.worker.pass.snapshot[k]))
          && PointSorted(c.worker.point))
  }

  /* ---------- transitions ---------- */

  lemma SettingKeepsSorted()
    ensures forall cs, next :: StrictlySortedByKind(cs) ==> StrictlySortedByKind(SetCondition(cs, next).conditions)
  {
    forall cs, next | StrictlySortedByKind(cs) ensures StrictlySortedByKind(SetCondition(cs, next).conditions) {
      SetConditionRefinesMapUpdate(cs, next, next.kind);
    }
  }

  lemma LiveObservationSorted(claim: ClaimRecord, host: HostRecord, obs: Observed, nowMs: i64, now: Timestamp)
    requires BothSorted(claim, host)
    ensures PointSorted(OnLiveObservation(claim, host, obs, nowMs, now))
  {
    hide SetCondition, StrictlySortedByKind;
    SettingKeepsSorted();
  }

  lemma DeletingObservationSorted(claim: ClaimRecord, host: HostRecord, obs: Observed, nowMs: i64, now: Timestamp)
    requires BothSorted(claim, host)
    ensures PointSorted(OnDeletingObservation(claim, host, obs, nowMs, now))
  {
    hide SetCondition, StrictlySortedByKind;
    SettingKeepsSorted();
  }

  lemma CreationSorted(claim: ClaimRecord, host: HostRecord, creation: Creation, nowMs: i64, now: Timestamp)
    requires BothSorted(claim, host)
    ensures var b := OnCreation(claim, host, creation, nowMs, now); BothSorted(b.claim, b.host)
  {
    hide SetCondition, StrictlySortedByKind;
    SettingKeepsSorted();
  }

  lemma SelectionSorted(claim: ClaimRecord, error: ProviderError, nowMs: i64, now: Timestamp)
    requires ClaimSorted(claim)
    ensures ClaimSorted(T.MarkUnsatisfiable(claim, now).claim)
    ensures ClaimSorted(T.ScheduleClaimError(claim, error, nowMs, now))
  {
    hide SetCondition, StrictlySortedByKind;
    SettingKeepsSorted();
  }

  lemma RpcKeepsSorted(t: Tables, id: HostClaimId, spec: HostResources, now: Timestamp)
    requires TablesSorted(t)
    ensures TablesSorted(CreateClaim(t, id, spec, now).tables) && TablesSorted(MarkClaimDeleting(t, id, now).tables)
  {
    hide SetCondition, StrictlySortedByKind, InitialClaim;
    SettingKeepsSorted();
    InitialConditions(spec, spec, id, 0, now);
  }

  lemma ClaimWriteKeepsSorted(t: Tables, claim: ClaimRecord)
    requires TablesSorted(t)
    ensures ClaimSorted(claim) ==> TablesSorted(SaveClaimStatus(t, claim))
    ensures TablesSorted(FinalizeClaim(t, claim.id).tables)
  {
    hide StrictlySortedByKind;
  }

  lemma HostWriteKeepsSorted(t: Tables, host: HostRecord)
    requires TablesSorted(t) && StrictlySortedByKind(host.row.conditions)
    ensures TablesSorted(SaveHost(t, host).tables)
  {
    hide StrictlySortedByKind;
  }

  lemma EnsureKeepsSorted(t: Tables, id: HostClaimId, plan: Plan, newId: HostId, now: Timestamp)
    requires TablesSorted(t)
    ensures TablesSorted(EnsureHost(t, id, plan.id, plan.resources, newId, now).tables)
  {
    hide SetCondition, StrictlySortedByKind, InitialHost;
    SettingKeepsSorted();
    InitialConditions(plan.resources, plan.resources, id, plan.id, now);
  }

  /* ---------- steps ---------- */

  lemma ListedIsSorted(t: Tables, s: seq<ClaimRecord>)
    requires TablesSorted(t) && IsListing(t, s)
    ensures forall k :: 0 <= k < |s| ==> ClaimSorted(s[k])
  {
    forall k | 0 <= k < |s| ensures ClaimSorted(s[k]) {
      assert s[k] == RecordOf(t, s[k].id);
    }
  }

  lemma ObserveKeepsCopies(c: Core, obs: Observed)
    requires At(c, DoObserve(obs)) && PointSorted(c.worker.point)
    ensures var d := AfterObserve(c, obs);
            d.worker.Busy? && d.worker.pass == c.worker.pass && PointSorted(d.worker.point)
  {
    hide OnLiveObservation, OnDeletingObservation, StrictlySortedByKind;
    LiveObservationSorted(c.worker.point.claim, c.worker.point.host, obs, c.worker.pass.now, c.clock);
    DeletingObservationSorted(c.worker.point.claim, c.worker.point.host, obs, c.worker.pass.now, c.clock);
  }

  lemma CallKeepsCopies(c: Core, a: Action, c': Core)
    requires Step(c, a, c') && (a.DoCreate? || a.DoDelete?) && c.worker.Busy? && PointSorted(c.worker.point)
    ensures c'.worker.Busy? && c'.worker.pass == c.worker.pass && PointSorted(c'.worker.point)
  {
    hide OnCreation, StrictlySortedByKind;
    if a.DoCreate? {
      CreationSorted(c.worker.point.claim, c.worker.point.host, a.creation, c.worker.pass.now, c.clock);
    }
  }

  lemma SelectKeepsCopies(c: Core, selected: Selected)
    requires At(c, DoSelect(selected)) && PointSorted(c.worker.point)
    ensures var d := AfterSelect(c, selected);
            d.worker.Busy? ==> d.worker.pass.snapshot == c.worker.pass.snapshot && PointSorted(d.worker.point)
  {
    hide T.MarkUnsatisfiable, T.ScheduleClaimError, StrictlySortedByKind;
    var error := if selected.Err? then selected.error else Transient(0);
    SelectionSorted(c.worker.point.claim, error, c.worker.pass.now, c.clock);
  }

  lemma SaveKeepsCopies(c: Core)
    requires At(c, DoSave) && PointSorted(c.worker.point)
    ensures var d := AfterSaving(c);
            d.worker.Busy? ==> d.worker.pass.snapshot == c.worker.pass.snapshot && PointSorted(d.worker.point)
  {
    hide StrictlySortedByKind, SaveHost;
    if SaveHost(c.tables, c.worker.point.host).result.Ok? { SavedRowExists(c.tables, c.worker.point.host); }
  }

  lemma MoveKeepsCopies(c: Core, a: Action, c': Core)
    requires AllSorted(c) && Step(c, a, c') && c.worker.Busy? && c'.worker.Busy?
    requires a.ScanNext? || a.DoFetch? || a.DoPersist? || a.DoFinalize? || a.DoEnsure? || IsEnvironment(a)
    ensures c'.worker.pass.snapshot == c.worker.pass.snapshot && PointSorted(c'.worker.point)
  {
    hide StrictlySortedByKind, SaveClaimStatus, EnsureHost, FinalizeClaim, CreateClaim, MarkClaimDeleting;
  }

  /** A step of the worker inside a pass leaves sorted copies behind. */
  lemma WorkKeepsCopiesSorted(c: Core, a: Action, c': Core)
    requires AllSorted(c) && Step(c, a, c') && c.worker.Busy? && c'.worker.Busy?
    ensures c'.worker.pass.snapshot == c.worker.pass.snapshot && PointSorted(c'.worker.point)
  {
    hide StrictlySortedByKind, TablesSorted, PointSorted, AfterSaving, AfterObserve, AfterEnsure, AfterScan,
         AfterFetch, AfterPersist, AfterSelect, AfterFinalize, AfterCreate, AfterDelete, AfterList;
    match a {
      case DoObserve(obs) => ObserveKeepsCopies(c, obs);
      case DoCreate(_, _) => CallKeepsCopies(c, a, c');
      case DoDelete(_) => CallKeepsCopies(c, a, c');
      case DoSelect(selected) => SelectKeepsCopies(c, selected);
      case DoSave => SaveKeepsCopies(c);
      case StorageFails =>
      case _ => MoveKeepsCopies(c, a, c');
    }
  }

  lemma WorkKeepsTablesSorted(c: Core, a: Action, c': Core)
    requires AllSorted(c) && Step(c, a, c')
    ensures TablesSorted(c'.tables)
  {
    hide SetCondition, TablesSorted, AfterSaving, AfterObserve, AfterEnsure, AfterScan, AfterFetch, AfterPersist,
         AfterSelect, AfterFinalize, AfterCreate, AfterDelete, AfterList;
    StepOnTables(c, a, c');
    var t := c.tables;
    match a
    case RpcCreate(id, spec) => RpcKeepsSorted(t, id, spec, c.clock);
    case RpcDelete(id) => RpcKeepsSorted(t, id, HostResources(0, 0, 0), c.clock);
    case DoSave => HostWriteKeepsSorted(t, c.worker.point.host);
    case DoPersist => ClaimWriteKeepsSorted(t, c.worker.point.claim);
    case DoFinalize => ClaimWriteKeepsSorted(t, c.worker.point.claim);
    case DoEnsure(h) => EnsureKeepsSorted(t, c.worker.point.claim.id, c.worker.point.plan, h, c.clock);
    case _ =>
  }

  lemma StepKeepsSorted(c: Core, a: Action, c': Core)
    requires AllSorted(c) && Step(c, a, c')
    ensures AllSorted(c')
  {
    WorkKeepsTablesSorted(c, a, c');
    hide SetCondition, TablesSorted, ClaimSorted, PointSorted, AfterSaving, AfterObserve, AfterEnsure, AfterScan,
         AfterFetch, AfterPersist, AfterSelect, AfterFinalize, AfterCreate, AfterDelete;
    if a.List? { ListedIsSorted(c.tables, a.snapshot); }
    if c.worker.Busy? && c'.worker.Busy? { WorkKeepsCopiesSorted(c, a, c'); }
    if c'.worker.Busy? { BusyAfter(c, a, c'); }
  }

  lemma BusyAfter(c: Core, a: Action, c': Core)
    requires Step(c, a, c') && c'.worker.Busy?
    ensures c.worker.Busy? || a.List?
  {}
}
