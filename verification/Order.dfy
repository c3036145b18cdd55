/** The order of work inside a pass, whatever else happens meanwhile. */
module Order {
  import opened Wrappers
  import opened Domain
  import opened Provider
  import opened Tables
  import opened Protocol
  import opened Invariants
  import opened Catalog
  import opened Fake
  import opened FakeSystem
  import opened Quiescence
  import T = Transitions

  /** A listed live claim a pass cannot report progress for: it was released
      since, it is settled, or its own or its host's retry is pending. */
  ghost predicate CannotProgress(t: Tables, f: FakeDb, id: HostClaimId, now: i64) {
    id in t.claims &&
    (|| Released(t.claims[id])
     || Settled(t, f, id)
     || ClaimWaits(t, id, now)
     || exists h :: Owns(t, h, id) && !t.hosts[h].retry.IsDue(now))
  }

  /** The part of the snapshot still ahead is up to date, but for releases. */
  ghost predicate RowsCurrent(t: Tables, p: Pass) {
    forall k :: 0 <= k < |p.snapshot| && (p.live ==> p.i <= k) ==> RowCurrent(t, p.snapshot[k])
  }

  predicate RowCurrent(t: Tables, r: ClaimRecord) {
    r.id in t.claims && (Released(t.claims[r.id]) || t.claims[r.id] == r.row)
  }

  ghost predicate EarlierStuck(t: Tables, f: FakeDb, p: Pass) {
    p.live ==> forall k :: 0 <= k < |p.snapshot| && k < p.i ==> CannotProgress(t, f, p.snapshot[k].id, p.now)
  }

  /** The claim the pass has reached is about to be passed over as Ready. */
  predicate StaysReady(t: Tables, point: Point) {
    match point
    case Save(claim, host, ThenPersist(Idle)) =>
      host.row.phase == HostPhase.Ready && host.row.retry == NO_RETRY && ReadyIs(claim.row.conditions, True)
    case Persist(claim, Idle) =>
      && ReadyIs(claim.row.conditions, True)
      && claim.hostId.Some? && claim.hostId.value in t.hosts
      && t.hosts[claim.hostId.value].phase == HostPhase.Ready && t.hosts[claim.hostId.value].retry == NO_RETRY
    case _ => true
  }

  ghost predicate InOrder(w: World) {
    w.core.worker.Busy? ==>
      var t, p := w.core.tables, w.core.worker.pass;
      RowsCurrent(t, p) && EarlierStuck(t, w.fake, p) && StaysReady(t, w.core.worker.point)
  }

  /* ---------- rows that do not change ---------- */

  /** From t to u this claim keeps its row, unless it is released, and its host. */
  ghost predicate Kept(t: Tables, u: Tables, id: HostClaimId) {
    id in t.claims ==>
      && id in u.claims && (u.claims[id] == t.claims[id] || Released(u.claims[id]))
      && (forall h :: Owns(t, h, id) <==> Owns(u, h, id))
      && (forall h :: Owns(t, h, id) ==> u.hosts[h] == t.hosts[h])
  }

  lemma StuckStays(t: Tables, f: FakeDb, u: Tables, g: FakeDb, id: HostClaimId, now: i64)
    requires Schema(t) && Schema(u) && g.plans == f.plans && Kept(t, u, id) && CannotProgress(t, f, id, now)
    ensures CannotProgress(u, g, id, now)
  {
    hide HostSettled, T.ShowsUnsatisfiable, Schema;
    if !Released(u.claims[id]) && Settled(t, f, id) {
      KeptSettled(t, f, u, g, id);
    }
  }

  lemma KeptSettled(t: Tables, f: FakeDb, u: Tables, g: FakeDb, id: HostClaimId)
    requires Schema(t) && Schema(u) && g.plans == f.plans && id in t.claims && Kept(t, u, id)
    requires !Released(u.claims[id]) && Settled(t, f, id)
    ensures Settled(u, g, id)
  {
    hide HostSettled, T.ShowsUnsatisfiable;
    if HostOf(t, id).Some? {
      var h := HostOf(t, id).value;
      HostOfIs(t, h);
      HostOfIs(u, h);
    } else {
      assert forall h :: h in t.hosts ==> !Owns(t, h, id);
    }
  }

  lemma EarlierStaysStuck(t: Tables, f: FakeDb, u: Tables, g: FakeDb, p: Pass)
    requires Schema(t) && Schema(u) && g.plans == f.plans && EarlierStuck(t, f, p)
    requires forall k :: 0 <= k < |p.snapshot| && k < p.i ==> Kept(t, u, p.snapshot[k].id)
    ensures EarlierStuck(u, g, p)
  {
    hide CannotProgress, Kept, Schema;
    if p.live {
      forall k | 0 <= k < |p.snapshot| && k < p.i ensures CannotProgress(u, g, p.snapshot[k].id, p.now) {
        StuckStays(t, f, u, g, p.snapshot[k].id, p.now);
      }
    }
  }

  /* ---------- steps ---------- */

  lemma RpcKeepsRows(c: Core, a: Action, c': Core)
    requires Step(c, a, c') && (a.RpcCreate? || a.RpcDelete?)
    ensures c'.worker == c.worker
    ensures forall id :: Kept(c.tables, c'.tables, id)
  {
    hide SetCondition;
  }

  lemma RpcKeepsOrder(w: World, a: Action, w': World)
    requires Sound(w) && InOrder(w) && WorldStep(w, Of(a), w') && (a.RpcCreate? || a.RpcDelete?)
    ensures InOrder(w')
  {
    hide Backed, PassBacked, PointBacked, TablesOk, Kept, CannotProgress, EarlierStuck;
    RpcKeepsRows(w.core, a, w'.core);
    RpcKeepsSafe(w.core, a, w'.core);
    SafeHasSchema(w.core);
    SafeHasSchema(w'.core);
    var t, u := w.core.tables, w'.core.tables;
    if w.core.worker.Busy? {
      var p := w.core.worker.pass;
      EarlierStaysStuck(t, w.fake, u, w.fake, p);
      RowsStayCurrent(t, u, p);
    }
  }

  lemma RowsStayCurrent(t: Tables, u: Tables, p: Pass)
    requires RowsCurrent(t, p) && forall id :: Kept(t, u, id)
    ensures RowsCurrent(u, p)
  {
    forall k | 0 <= k < |p.snapshot| && (p.live ==> p.i <= k) ensures RowCurrent(u, p.snapshot[k]) {
      assert Kept(t, u, p.snapshot[k].id);
    }
  }

  lemma ListIsInOrder(w: World, s: seq<ClaimRecord>, w': World)
    requires WorldStep(w, Of(List(s)), w')
    ensures InOrder(w')
  {
    hide RecordOf, Answers;
    var t := w.core.tables;
    forall k | 0 <= k < |s| ensures RowCurrent(t, s[k]) {
      assert s[k] == RecordOf(t, s[k].id);
      RecordHasRow(t, s[k].id);
    }
  }

  lemma RecordHasRow(t: Tables, id: HostClaimId)
    requires id in t.claims
    ensures RecordOf(t, id).row == t.claims[id] && RecordOf(t, id).id == id
  {}

  /** Passing over the claim the pass has reached. */
  lemma PassedOver(t: Tables, f: FakeDb, p: Pass)
    requires RowsCurrent(t, p) && EarlierStuck(t, f, p) && p.i < |p.snapshot|
    requires p.live ==> CannotProgress(t, f, p.snapshot[p.i].id, p.now)
    ensures var q := p.(i := p.i + 1); RowsCurrent(t, q) && EarlierStuck(t, f, q)
  {
    hide CannotProgress, RowCurrent;
  }

  /** What the invariant says about the claim the pass has reached. */
  lemma ReachedClaim(w: World)
    requires Sound(w) && InOrder(w) && w.core.worker.Busy? && w.core.worker.pass.i < |w.core.worker.pass.snapshot|
    ensures var t, p := w.core.tables, w.core.worker.pass;
            var r := p.snapshot[p.i];
            && r.id in t.claims && (Released(r.row) ==> r.row.retry == NO_RETRY)
            && (Released(r.row) ==> Released(t.claims[r.id]))
            && (Released(t.claims[r.id]) || t.claims[r.id] == r.row)
            && (r.hostId.Some? ==> Owns(t, r.hostId.value, r.id))
            && (r.hostId.None? ==> HostOf(t, r.id) == None)
            && (r.hostId.Some? ==> HostOf(t, r.id) == r.hostId)
  {
    hide Backed, PointBacked, EarlierStuck, StaysReady;
    var t, p := w.core.tables, w.core.worker.pass;
    assert Agrees(t, p.snapshot[p.i]);
    assert RowCurrent(t, p.snapshot[p.i]);
    if p.snapshot[p.i].hostId.Some? { HostOfIs(t, p.snapshot[p.i].hostId.value); }
  }

  lemma ScanKeepsOrder(w: World, w': World)
    requires Sound(w) && InOrder(w) && WorldStep(w, Of(ScanNext), w')
    ensures InOrder(w')
  {
    hide Sound, RowsCurrent, CannotProgress;
    var t, f, p := w.core.tables, w.fake, w.core.worker.pass;
    if p.i < |p.snapshot| {
      ReachedClaim(w);
      var r := p.snapshot[p.i];
      if p.live && (Released(r.row) || (r.hostId.None? && !r.row.retry.IsDue(p.now))) {
        IdleIsStuck(t, f, r.id, p.now);
        PassedOver(t, f, p);
      } else if !p.live {
        PassedOver(t, f, p);
      }
    } else {
      LiveLoopIsCurrent(t, p);
    }
  }

  lemma LiveLoopIsCurrent(t: Tables, p: Pass)
    requires RowsCurrent(t, p)
    ensures !p.live ==> RowsCurrent(t, p.(live := true, i := 0))
  {
    hide RowCurrent;
  }

  lemma IdleIsStuck(t: Tables, f: FakeDb, id: HostClaimId, now: i64)
    requires id in t.claims && (Released(t.claims[id]) || ClaimWaits(t, id, now))
    ensures CannotProgress(t, f, id, now)
  {
    hide Settled;
  }

  lemma FetchKeepsOrder(w: World, w': World)
    requires Sound(w) && InOrder(w) && WorldStep(w, Of(DoFetch), w')
    ensures InOrder(w')
  {
    hide Backed, PassBacked, PointBacked, TablesOk, PassOk, RowsCurrent, EarlierStuck;
    FetchKeepsSafe(w.core);
    ReachedClaim(w);
    var t, f, p, claim := w.core.tables, w.fake, w.core.worker.pass, w.core.worker.point.claim;
    var host := t.hosts[claim.hostId.value];
    if !host.retry.IsDue(p.now) || (p.live && host.phase == HostPhase.Failed) {
      PassedOver(t, f, p);
    }
  }

  lemma ObserveKeepsOrder(w: World, a: WorldAction, obs: Observed, w': World)
    requires Sound(w) && InOrder(w) && WorldStep(w, a, w')
    requires a == Of(DoObserve(obs)) || a == ProviderFails(DoObserve(obs))
    ensures InOrder(w')
  {
    hide Backed, PassBacked, PointBacked, TablesOk, PassOk, RowsCurrent, CannotProgress, SetCondition, ObserveHost;
    CurrentHost(w);
    SafeHasSchema(w.core);
    ObserveCases(w.fake, w.core.worker.point.host.id);
    var t, p := w.core.tables, w.core.worker.pass;
    NothingKept(t);
    EarlierStaysStuck(t, w.fake, t, w'.fake, p);
  }

  lemma NothingKept(t: Tables)
    ensures forall id :: Kept(t, t, id)
  {}

  lemma CallKeepsOrder(w: World, a: WorldAction, w': World)
    requires Sound(w) && InOrder(w) && WorldStep(w, a, w') && !a.InjectFault?
             && (a.action.DoCreate? || a.action.DoDelete?)
    ensures InOrder(w')
  {
    hide Sound, RowsCurrent, CannotProgress, SetCondition, CreateResource, DeleteResource, OnCreation, OnDeletion;
    SoundHasSchema(w);
    var host := w.core.worker.point.host;
    match a.action {
      case DoCreate(_, r) => CreateCasesKeepPlans(w.fake, host.id, host.row.planId, r);
      case DoDelete(_) => DeleteAnswers(w.fake, host.id);
    }
    NothingKept(w.core.tables);
    EarlierStaysStuck(w.core.tables, w.fake, w.core.tables, w'.fake, w.core.worker.pass);
  }

  lemma SaveKeepsOthers(t: Tables, u: Tables, host: HostRecord, id: HostClaimId)
    requires u == t.(hosts := t.hosts[host.id := host.row]) && host.id in t.hosts
    requires host.row.claimId == t.hosts[host.id].claimId && id != host.row.claimId
    ensures Kept(t, u, id)
  {}

  lemma SaveKeepsOrder(w: World, w': World)
    requires Sound(w) && InOrder(w) && WorldStep(w, Of(DoSave), w')
    ensures InOrder(w')
  {
    hide Sound, RowsCurrent, CannotProgress, EarlierStuck, SetCondition, SaveHost, Schema, Kept;
    SoundHasSchema(w);
    SnapshotShape(w);
    CurrentHost(w);
    SavedTables(w);
    var t, p, host := w.core.tables, w.core.worker.pass, w.core.worker.point.host;
    var u := SaveHost(t, host).tables;
    SaveHostKeepsSchema(t, host);
    if SaveHost(t, host).result.Ok? {
      forall k | 0 <= k < |p.snapshot| && k < p.i ensures Kept(t, u, p.snapshot[k].id) {
        assert p.snapshot[k].id != p.snapshot[p.i].id;
        SaveKeepsOthers(t, u, host, p.snapshot[k].id);
      }
      EarlierStaysStuck(t, w.fake, u, w.fake, p);
      SameClaimsStayCurrent(t, u, p);
    }
  }

  lemma SameClaimsStayCurrent(t: Tables, u: Tables, p: Pass)
    requires RowsCurrent(t, p) && u.claims == t.claims
    ensures RowsCurrent(u, p)
  {}

  lemma SavedTables(w: World)
    requires Sound(w) && At(w.core, DoSave)
    ensures var t, host, p := w.core.tables, w.core.worker.point.host, w.core.worker.pass;
            && host.id in t.hosts && host.row.claimId == t.hosts[host.id].claimId
            && p.i < |p.snapshot| && host.row.claimId == p.snapshot[p.i].id
            && w.core.worker.point.claim.hostId == Some(host.id)
            && (SaveHost(t, host).result.Ok? ==> SaveHost(t, host).tables == t.(hosts := t.hosts[host.id := host.row]))
  {
    hide Backed, PassBacked, PointBacked, TablesOk;
    var t, host, p := w.core.tables, w.core.worker.point.host, w.core.worker.pass;
    assert Agrees(t, p.snapshot[p.i]);
    if SaveHost(t, host).result.Ok? {
      assert WithObservation(t.hosts[host.id], host.row) == host.row;
    }
  }

  lemma PersistKeepsOthers(t: Tables, claim: ClaimRecord, id: HostClaimId)
    requires id != claim.id
    ensures Kept(t, SaveClaimStatus(t, claim), id)
  {}

  lemma PersistKeepsOrder(w: World, w': World)
    requires Sound(w) && InOrder(w) && WorldStep(w, Of(DoPersist), w')
    ensures InOrder(w')
  {
    hide Backed, PassBacked, PointBacked, TablesOk, PassOk, RowsCurrent, CannotProgress, SetCondition, Kept;
    SoundHasSchema(w);
    SnapshotShape(w);
    ReachedClaim(w);
    var t, p, claim := w.core.tables, w.core.worker.pass, w.core.worker.point.claim;
    var u := SaveClaimStatus(t, claim);
    if w.core.worker.point.result == Idle {
      forall k | 0 <= k < |p.snapshot| && k < p.i ensures Kept(t, u, p.snapshot[k].id) {
        assert p.snapshot[k].id != p.snapshot[p.i].id;
        PersistKeepsOthers(t, claim, p.snapshot[k].id);
      }
      SaveStatusKeepsSchema(t, claim);
      EarlierStaysStuck(t, w.fake, u, w.fake, p);
      PersistedIsReady(t, w.fake, claim, p.now);
      LaterRowsCurrent(t, claim, p);
    }
  }

  lemma PersistedIsReady(t: Tables, f: FakeDb, claim: ClaimRecord, now: i64)
    requires Schema(t) && claim.id in t.claims && claim.hostId.Some? && Owns(t, claim.hostId.value, claim.id)
    requires StaysReady(t, Persist(claim, Idle)) && !Released(claim.row)
    ensures CannotProgress(SaveClaimStatus(t, claim), f, claim.id, now)
  {
    hide ReadyIs;
    var u := SaveClaimStatus(t, claim);
    SaveStatusKeepsSchema(t, claim);
    if !Released(u.claims[claim.id]) {
      assert Owns(u, claim.hostId.value, claim.id);
      SettledOwner(u, f, claim.hostId.value, claim.id);
    }
  }

  lemma LaterRowsCurrent(t: Tables, claim: ClaimRecord, p: Pass)
    requires RowsCurrent(t, p) && p.live && p.i < |p.snapshot| && p.snapshot[p.i].id == claim.id
    requires forall j, k :: 0 <= j < k < |p.snapshot| ==> p.snapshot[j].id != p.snapshot[k].id
    ensures RowsCurrent(SaveClaimStatus(t, claim), p.(i := p.i + 1))
  {}

  lemma SelectKeepsOrder(w: World, a: WorldAction, selected: Selected, w': World)
    requires Sound(w) && InOrder(w) && WorldStep(w, a, w')
    requires a == Of(DoSelect(selected)) || a == ProviderFails(DoSelect(selected))
    ensures InOrder(w')
  {
    hide Backed, PassBacked, PointBacked, TablesOk, PassOk, RowsCurrent, EarlierStuck, SetCondition, SelectPlan,
         T.MarkUnsatisfiable, T.ShowsUnsatisfiable, T.ScheduleClaimError;
    ReachedClaim(w);
    SelectedSpecIsStorable(w.core);
    var t, p, claim := w.core.tables, w.core.worker.pass, w.core.worker.point.claim;
    NothingSelected(w.fake.plans, claim.row.spec);
    T.MarkUnsatisfiableSettles(claim, w.core.clock);
    if selected == Ok(None) && !T.MarkUnsatisfiable(claim, w.core.clock).changed {
      PassedOver(t, w.fake, p);
    }
  }

  lemma EnsureKeepsOrder(w: World, newHost: HostId, w': World)
    requires Sound(w) && InOrder(w) && WorldStep(w, Of(DoEnsure(newHost)), w')
    ensures InOrder(w')
  {
    hide Backed, PassBacked, PointBacked, TablesOk, PassOk, RowsCurrent, EarlierStuck, SetCondition;
    ReachedClaim(w);
    var t, p, claim, plan := w.core.tables, w.core.worker.pass, w.core.worker.point.claim, w.core.worker.point.plan;
    var reply := EnsureHost(t, claim.id, plan.id, plan.resources, newHost, w.core.clock);
    if reply.result == Err(Conflict) {
      IdleIsStuck(t, w.fake, claim.id, p.now);
      PassedOver(t, w.fake, p);
    }
  }

  lemma OthersKeepOrder(w: World, a: Action, w': World)
    requires Sound(w) && InOrder(w) && WorldStep(w, Of(a), w')
    requires a.RpcWake? || a.Tick? || a.Crash? || a.Restart? || a.Resume? || a.WakeSelf? || a.ListFails?
             || a.StorageFails?
             || a.DoFinalize?
    ensures InOrder(w')
  {
    hide Sound, RowsCurrent, EarlierStuck;
  }

  lemma InjectionKeepsOrder(w: World, kind: Fault, n: nat, w': World)
    requires Sound(w) && InOrder(w) && WorldStep(w, InjectFault(kind, n), w')
    ensures InOrder(w')
  {
    hide Sound, RowsCurrent, CannotProgress;
    SoundHasSchema(w);
    if w.core.worker.Busy? {
      NothingKept(w.core.tables);
      EarlierStaysStuck(w.core.tables, w.fake, w.core.tables, w'.fake, w.core.worker.pass);
    }
  }

  lemma StepKeepsOrder(w: World, a: WorldAction, w': World)
    requires Sound(w) && InOrder(w) && WorldStep(w, a, w')
    ensures InOrder(w')
  {
    hide Sound, WorldStep, InOrder;
    match a
    case InjectFault(kind, n) => InjectionKeepsOrder(w, kind, n, w');
    case ProviderFails(action) =>
      OnlyProviderCallsFail(w, action, w');
      if action.DoObserve? {
        ObserveKeepsOrder(w, a, action.observed, w');
      } else if action.DoSelect? {
        SelectKeepsOrder(w, a, action.selected, w');
      } else {
        CallKeepsOrder(w, a, w');
      }
    case Of(action) =>
      match action
      case RpcCreate(_, _) => RpcKeepsOrder(w, action, w');
      case RpcDelete(_) => RpcKeepsOrder(w, action, w');
      case List(s) => ListIsInOrder(w, s, w');
      case ScanNext => ScanKeepsOrder(w, w');
      case DoFetch => FetchKeepsOrder(w, w');
      case DoObserve(obs) => ObserveKeepsOrder(w, a, obs, w');
      case DoSave => SaveKeepsOrder(w, w');
      case DoCreate(_, _) => CallKeepsOrder(w, a, w');
      case DoDelete(_) => CallKeepsOrder(w, a, w');
      case DoPersist => PersistKeepsOrder(w, w');
      case DoSelect(selected) => SelectKeepsOrder(w, a, selected, w');
      case DoEnsure(h) => EnsureKeepsOrder(w, h, w');
      case _ => OthersKeepOrder(w, action, w');
  }

  /* ---------- what it means ---------- */

  /** The pass fetches the host of the claim, and a fault-free lookup is stable. */
  ghost predicate LooksStable(c: Core, f: FakeDb, claim: ClaimRecord) {
    && c.worker.Busy? && c.worker.point == Fetch(claim) && claim.hostId.Some?
    && var d := AfterFetch(c);
       && d.worker.Busy? && d.worker.point.Observe?
       && var next := AfterObserve(d, ObserveHost(f, claim.hostId.value).response).worker.point;
          next.Save? && next.after == ThenPersist(Idle)
  }

  /** A pass that reaches a live claim that cannot progress passes it over: it is
      not due, its host is not due or has failed, a fault-free lookup is stable, or
      there is still no plan for it and it says so. */
  lemma StuckReportsNothing(w: World)
    requires Sound(w) && w.core.worker.Busy? && w.core.worker.point.Scan? && w.core.worker.pass.live
    requires w.core.worker.pass.i < |w.core.worker.pass.snapshot| && w.fake.faults.observeTransient == 0
    requires var claim := w.core.worker.pass.snapshot[w.core.worker.pass.i];
             && claim.id in w.core.tables.claims && claim.row == w.core.tables.claims[claim.id]
             && CannotProgress(w.core.tables, w.fake, claim.id, w.core.worker.pass.now)
    ensures var claim, c := w.core.worker.pass.snapshot[w.core.worker.pass.i], AfterScan(w.core);
            || c == EndClaim(w.core, Idle)
            || (claim.hostId.Some? && c == Goto(w.core, Fetch(claim)) && AfterFetch(c) == EndClaim(c, Idle))
            || (claim.hostId.Some? && c == Goto(w.core, Fetch(claim)) && LooksStable(c, w.fake, claim))
            || (claim.hostId.None? && c == Goto(w.core, Select(claim))
                && AfterSelect(c, SelectPlan(w.fake.plans, claim.row.spec)) == EndClaim(c, Idle))
  {
    hide Sound, Safe, Backed, SetCondition, T.MarkUnsatisfiable, T.ShowsUnsatisfiable, SelectPlan, Settled;
    var t, p := w.core.tables, w.core.worker.pass;
    var claim := p.snapshot[p.i];
    SoundHasSchema(w);
    ListedAgrees(w);
    if claim.hostId.Some? {
      var h := claim.hostId.value;
      HostOfIs(t, h);
      SettledOwner(t, w.fake, h, claim.id);
      ObserveCases(w.fake, h);
      if t.hosts[h].phase == HostPhase.Ready { ReadyIsFound(w, h); }
    } else {
      UnboundIsSettled(t, w.fake, claim.id);
      NothingSelected(w.fake.plans, claim.row.spec);
      T.MarkUnsatisfiableSettles(claim, w.core.clock);
    }
  }

  lemma ListedAgrees(w: World)
    requires Sound(w) && w.core.worker.Busy? && w.core.worker.pass.i < |w.core.worker.pass.snapshot|
    ensures var claim := w.core.worker.pass.snapshot[w.core.worker.pass.i];
            Agrees(w.core.tables, claim) && Storable(claim.row.spec)
  {
    hide Backed, PassBacked, PointBacked;
    assert Agrees(w.core.tables, w.core.worker.pass.snapshot[w.core.worker.pass.i]);
  }

  lemma UnboundIsSettled(t: Tables, f: FakeDb, id: HostClaimId)
    requires id in t.claims && HostOf(t, id).None?
    ensures Settled(t, f, id) ==> Best(f.plans, t.claims[id].spec).None? && T.ShowsUnsatisfiable(t.claims[id])
  {}

  lemma ReadyIsFound(w: World, h: HostId)
    requires Sound(w) && h in w.core.tables.hosts && w.core.tables.hosts[h].phase == HostPhase.Ready
    ensures h in w.fake.resources && w.fake.resources[h].lifecycle == ProviderLifecycle.Ready
    ensures w.core.tables.hosts[h].resourceId == Some(w.fake.resources[h].id)
  {
    hide PassBacked, PointBacked, WorkerOk, Assigned, CatalogOk;
    assert RowBacked(h, w.core.tables.hosts[h], w.fake, Released(w.core.tables.claims[w.core.tables.hosts[h].claimId]));
  }
}
