/** The protocol running against the fake provider. */
module FakeSystem {
  import opened Wrappers
  import opened Domain
  import opened Provider
  import opened Tables
  import opened Protocol
  import opened Invariants
  import opened Catalog
  import opened Fake
  import T = Transitions

  datatype World = World(core: Core, fake: FakeDb)

  /** A step of the protocol, a fault injection, or a step in which the provider
      reports an I/O error although its effect may have taken place. */
  datatype WorldAction =
    | Of(action: Action)
    | InjectFault(kind: Fault, count: nat)
    | ProviderFails(action: Action)

  /** The provider database after a step of the controller, when the response in
      the step is the one the fake gives. */
  ghost predicate Answers(w: World, a: Action, fake': FakeDb) {
    match a
    case DoObserve(obs) => At(w.core, a) && ObserveHost(w.fake, w.core.worker.point.host.id) == Answer(fake', obs)
    case DoCreate(creation, newId) =>
      && At(w.core, a) && newId !in w.fake.issued
      && var host := w.core.worker.point.host;
         CreateResource(w.fake, host.id, host.row.planId, newId) == Answer(fake', creation)
    case DoDelete(deletion) =>
      At(w.core, a) && DeleteResource(w.fake, w.core.worker.point.host.id) == Answer(fake', deletion)
    case DoSelect(selected) =>
      At(w.core, a) && selected == SelectPlan(w.fake.plans, w.core.worker.point.claim.row.spec) && fake' == w.fake
    case _ => fake' == w.fake
  }

  predicate IsTransient<T>(response: Result<T, ProviderError>) {
    response.Err? && response.error.Transient?
  }

  predicate SameButFaults(f: FakeDb, f': FakeDb) {
    f' == f.(faults := f'.faults)
  }

  /** The provider database after a provider call that reports an I/O error. */
  ghost predicate FailsAnyhow(w: World, a: Action, fake': FakeDb) {
    At(w.core, a) &&
    match a
    case DoObserve(obs) => IsTransient(obs) && SameButFaults(w.fake, fake')
    case DoCreate(creation, newId) =>
      && IsTransient(creation) && newId !in w.fake.issued
      && var host := w.core.worker.point.host;
         || SameButFaults(w.fake, fake')
         || (&& host.id !in w.fake.resources && Offers(w.fake, host.row.planId)
             && SameButFaults(Inserted(w.fake, host.id, host.row.planId, newId), fake'))
    case DoSelect(selected) => IsTransient(selected) && fake' == w.fake
    case DoDelete(deletion) =>
      && IsTransient(deletion)
      && (|| SameButFaults(w.fake, fake')
          || SameButFaults(w.fake.(resources := w.fake.resources - {w.core.worker.point.host.id}), fake'))
    case _ => false
  }

  ghost predicate WorldStep(w: World, a: WorldAction, w': World) {
    match a
    case Of(action) => Step(w.core, action, w'.core) && Answers(w, action, w'.fake)
    case InjectFault(kind, n) => w' == w.(fake := w.fake.(faults := w.fake.faults.With(kind, n)))
    case ProviderFails(action) => Step(w.core, action, w'.core) && FailsAnyhow(w, action, w'.fake)
  }

  predicate WorldInit(w: World) {
    Init(w.core) && CatalogOk(w.fake.plans) && w.fake.resources == map[] && w.fake.issued == map[]
  }

  ghost predicate WorldRun(ws: seq<World>, actions: seq<WorldAction>) {
    && |ws| == |actions| + 1
    && forall k :: 0 <= k < |actions| ==> WorldStep(ws[k], actions[k], ws[k + 1])
  }

  /* ---------- the invariant ---------- */

  /** The phase of a host row against the provider's resources. */
  predicate RowBacked(h: HostId, row: HostRow, f: FakeDb, released: bool) {
    && (row.resourceId.Some? ==>
          && row.resourceId.value in f.issued && f.issued[row.resourceId.value] == h
          && (h in f.resources ==> f.resources[h].id == row.resourceId.value))
    && match row.phase
       case Pending => h !in f.resources && row.resourceId.None?
       case Provisioning => row.resourceId.None?
       case Ready => h in f.resources && row.resourceId.Some?
       case Deleting => released && row.resourceId.Some?
       case Failed => h !in f.resources && row.resourceId.None?
  }

  /** The row was assigned an enabled plan of the catalogue that meets the claim. */
  predicate Assigned(row: HostRow, spec: HostResources, plans: seq<PlanRow>) {
    && row.resources.Meets(spec)
    && exists p | p in plans :: IsPlan(p, row.planId, row.resources)
  }

  predicate IsPlan(p: PlanRow, id: PlanId, r: HostResources) {
    p.enabled && p.id == id && r.vcpus == p.vcpus && r.memoryBytes == p.memoryBytes && r.storageBytes == p.storageBytes
  }

  ghost predicate HasReadyHost(t: Tables, id: HostClaimId) {
    exists h :: Owns(t, h, id) && t.hosts[h].phase == HostPhase.Ready
  }

  predicate ResourceBacked(t: Tables, f: FakeDb, h: HostId)
    requires h in f.resources
  {
    && h in t.hosts && f.resources[h].planId == t.hosts[h].planId
    && f.resources[h].lifecycle == ProviderLifecycle.Ready
    && f.resources[h].id in f.issued && f.issued[f.resources[h].id] == h
  }

  ghost predicate Backed(t: Tables, f: FakeDb)
    requires Schema(t)
  {
    && CatalogOk(f.plans)
    && (forall h :: h in f.resources ==> ResourceBacked(t, f, h))
    && (forall h :: h in t.hosts ==>
          && RowBacked(h, t.hosts[h], f, Released(t.claims[t.hosts[h].claimId]))
          && Assigned(t.hosts[h], t.claims[t.hosts[h].claimId].spec, f.plans))
    && (forall id :: id in t.claims && ReadyIs(t.claims[id].conditions, True) ==> HasReadyHost(t, id))
  }

  /** A row about to be written matches the provider, and leaves no claim Ready without a Ready host. */
  predicate SaveBacked(t: Tables, f: FakeDb, p: Pass, claim: ClaimRecord, host: HostRecord, after: AfterSave) {
    && RowBacked(host.id, host.row, f, !p.live)
    && match after
       case ThenCreate => host.id !in f.resources
       case ThenDelete => host.id in f.resources
       case ThenPersist(_) =>
         && p.live
         && (ReadyIs(claim.row.conditions, True) ==> host.row.phase == HostPhase.Ready)
         && (host.row.phase == HostPhase.Ready || (host.id in t.hosts && t.hosts[host.id].phase != HostPhase.Ready))
       case ThenProgress => true
  }

  ghost predicate PointBacked(t: Tables, f: FakeDb, p: Pass, point: Point) {
    match point
    case Save(claim, host, after) => SaveBacked(t, f, p, claim, host, after)
    case Create(_, host) => host.id !in f.resources
    case Delete(_, host) => host.id in f.resources
    case Persist(claim, result) =>
      && p.live && (ReadyIs(claim.row.conditions, True) ==> HasReadyHost(t, claim.id))
      && (claim.hostId.None? ==> result == Progress)
    case Finalize(claim) => claim.hostId.Some? ==> claim.hostId.value !in f.resources
    case Ensure(claim, plan) =>
      && plan.resources.Meets(claim.row.spec) && Storable(plan.resources)
      && exists q | q in f.plans :: IsPlan(q, plan.id, plan.resources)
    case _ => true
  }

  /** No live record of the snapshot has a host in phase Deleting, even if an RPC
      has released the claim since; and no unbound record says Ready. */
  predicate PassBacked(t: Tables, p: Pass) {
    forall k :: 0 <= k < |p.snapshot| ==>
      && (p.snapshot[k].hostId.None? ==> !ReadyIs(p.snapshot[k].row.conditions, True))
      && (!Released(p.snapshot[k].row) && p.snapshot[k].hostId.Some? && p.snapshot[k].hostId.value in t.hosts ==>
            t.hosts[p.snapshot[k].hostId.value].phase != HostPhase.Deleting)
  }

  ghost predicate Sound(w: World) {
    && Safe(w.core)
    && Backed(w.core.tables, w.fake)
    && (w.core.worker.Busy? ==>
          && PassBacked(w.core.tables, w.core.worker.pass)
          && PointBacked(w.core.tables, w.fake, w.core.worker.pass, w.core.worker.point))
  }

  lemma SoundHasSchema(w: World)
    requires Sound(w)
    ensures Schema(w.core.tables)
  {
    hide Backed, PassBacked, PointBacked;
  }

  lemma SoundParts(w: World)
    requires Sound(w)
    ensures Safe(w.core) && TablesOk(w.core.tables, w.core.clock) && Schema(w.core.tables)
            && Backed(w.core.tables, w.fake)
    ensures w.core.worker.Busy? ==>
              var t, p, point := w.core.tables, w.core.worker.pass, w.core.worker.point;
              && PassOk(t, w.core.clock, p) && PointOk(t, w.core.clock, p, point)
              && PassBacked(t, p) && PointBacked(t, w.fake, p, point)
  {
    hide Backed, PassBacked, PointBacked, Schema, PassOk, PointOk;
  }

  /* ---------- steps of the environment ---------- */

  /** The clauses of the invariant, apart. */
  lemma BackedFrom(t: Tables, f: FakeDb)
    requires Schema(t) && CatalogOk(f.plans)
    requires forall h :: h in f.resources ==> ResourceBacked(t, f, h)
    requires forall h :: h in t.hosts ==>
               && RowBacked(h, t.hosts[h], f, Released(t.claims[t.hosts[h].claimId]))
               && Assigned(t.hosts[h], t.claims[t.hosts[h].claimId].spec, f.plans)
    requires forall id :: id in t.claims && ReadyIs(t.claims[id].conditions, True) ==> HasReadyHost(t, id)
    ensures Backed(t, f)
  {
    hide RowBacked, Assigned, HasReadyHost, ReadyIs, CatalogOk;
  }

  lemma RpcKeepsBacked(t: Tables, u: Tables, f: FakeDb, clock: Timestamp)
    requires Schema(t) && Schema(u) && RpcChange(t, u, clock) && Backed(t, f)
    ensures Backed(u, f)
  {
    hide ReadyIs, Assigned, CatalogOk, ClaimOk, HasReadyHost;
    forall h | h in u.hosts
      ensures RowBacked(h, u.hosts[h], f, Released(u.claims[u.hosts[h].claimId]))
      ensures Assigned(u.hosts[h], u.claims[u.hosts[h].claimId].spec, f.plans)
    {
      assert RowBacked(h, t.hosts[h], f, Released(t.claims[t.hosts[h].claimId]));
    }
    forall id | id in u.claims && ReadyIs(u.claims[id].conditions, True) ensures HasReadyHost(u, id) {
      ReadyClaimKeepsHost(t, u, f, clock, id);
    }
    BackedFrom(u, f);
  }

  lemma ReadyClaimKeepsHost(t: Tables, u: Tables, f: FakeDb, clock: Timestamp, id: HostClaimId)
    requires Schema(t) && RpcChange(t, u, clock) && Backed(t, f)
    requires id in u.claims && ReadyIs(u.claims[id].conditions, True)
    ensures HasReadyHost(u, id)
  {
    hide RowBacked, Assigned, CatalogOk, ResourceBacked;
    assert id in t.claims && u.claims[id] == t.claims[id];
    var h :| Owns(t, h, id) && t.hosts[h].phase == HostPhase.Ready;
    assert Owns(u, h, id);
  }

  lemma SameHostsSamePoint(t: Tables, u: Tables, f: FakeDb, p: Pass, point: Point)
    requires u.hosts == t.hosts && PointBacked(t, f, p, point)
    ensures PointBacked(u, f, p, point)
  {
    if point.Persist? && ReadyIs(point.claim.row.conditions, True) {
      var h :| Owns(t, h, point.claim.id) && t.hosts[h].phase == HostPhase.Ready;
      assert Owns(u, h, point.claim.id);
    }
  }

  lemma RpcKeepsSound(w: World, a: Action, w': World)
    requires Sound(w) && WorldStep(w, Of(a), w') && (a.RpcCreate? || a.RpcDelete?)
    ensures Sound(w')
  {
    hide SetCondition, Backed, RowBacked, Assigned, TablesOk, PassOk, PointOk, PointBacked, Schema;
    RpcKeepsSafe(w.core, a, w'.core);
    SafeHasSchema(w.core);
    SafeHasSchema(w'.core);
    RpcChanges(w.core, a, w'.core);
    RpcKeepsBacked(w.core.tables, w'.core.tables, w.fake, w.core.clock);
    if w.core.worker.Busy? {
      SameHostsSamePoint(w.core.tables, w'.core.tables, w.fake, w.core.worker.pass, w.core.worker.point);
    }
  }

  /* ---------- provider calls ---------- */

  /** The provider never contradicts a recorded resource ID. */
  lemma ObservedIdAgrees(w: World, obs: Observed, fake': FakeDb)
    requires Sound(w) && Answers(w, DoObserve(obs), fake')
    ensures var row := w.core.worker.point.host.row;
            obs.Ok? && obs.value.Present? && row.resourceId.Some? ==> row.resourceId.value == obs.value.resource.id
  {
    ObserveCases(w.fake, w.core.worker.point.host.id);
  }

  /** The invariant does not depend on the remaining faults. */
  lemma FaultsDoNotMatter(t: Tables, f: FakeDb, faults: Faults, p: Pass, point: Point)
    requires Schema(t)
    ensures Backed(t, f) ==> Backed(t, f.(faults := faults))
    ensures PointBacked(t, f, p, point) ==> PointBacked(t, f.(faults := faults), p, point)
  {}

  lemma LivePointBacked(t: Tables, f: FakeDb, p: Pass, claim: ClaimRecord, host: HostRecord, obs: Observed,
                        nowMs: i64, now: Timestamp)
    requires RowBacked(host.id, host.row, f, false) && p.live
    requires host.id in t.hosts && t.hosts[host.id] == host.row && host.row.phase != HostPhase.Failed
    requires host.id in f.resources ==> f.resources[host.id].lifecycle == ProviderLifecycle.Ready
                                        && f.resources[host.id].id in f.issued
                                        && f.issued[f.resources[host.id].id] == host.id
    requires obs == ObserveHost(f, host.id).response || IsTransient(obs)
    ensures PointBacked(t, f, p, OnLiveObservation(claim, host, obs, nowMs, now))
  {
    hide SetCondition;
    ObserveCases(f, host.id);
    if obs.Err? {
      var b := T.ScheduleHostError(claim, host, obs.error, nowMs, now);
      assert ReadyIs(b.claim.row.conditions, Unknown);
    }
  }

  lemma DeletingPointBacked(t: Tables, f: FakeDb, p: Pass, claim: ClaimRecord, host: HostRecord, obs: Observed,
                            nowMs: i64, now: Timestamp)
    requires RowBacked(host.id, host.row, f, true) && !p.live && claim.hostId == Some(host.id)
    requires host.id in f.resources ==>
        f.resources[host.id].id in f.issued && f.issued[f.resources[host.id].id] == host.id
    requires obs == ObserveHost(f, host.id).response || IsTransient(obs)
    ensures PointBacked(t, f, p, OnDeletingObservation(claim, host, obs, nowMs, now))
  {
    hide SetCondition;
    ObserveCases(f, host.id);
  }

  /** What the invariant says about the claim and host the worker holds. */
  lemma CurrentHost(w: World)
    requires Sound(w) && w.core.worker.Busy?
    requires w.core.worker.point.Observe? || w.core.worker.point.Save? || w.core.worker.point.Create?
             || w.core.worker.point.Delete?
    ensures var t, p, f := w.core.tables, w.core.worker.pass, w.fake;
            var claim, host := w.core.worker.point.claim, w.core.worker.point.host;
            && claim.hostId == Some(host.id) && host.id in t.hosts && t.hosts[host.id].claimId == claim.id
            && claim.id in t.claims && Owns(t, host.id, claim.id)
            && RowBacked(host.id, t.hosts[host.id], f, !p.live)
            && (!p.live ==> Released(t.claims[claim.id]))
            && (host.id in f.resources ==>
                  && f.resources[host.id].planId == t.hosts[host.id].planId
                  && f.resources[host.id].lifecycle == ProviderLifecycle.Ready
                  && f.resources[host.id].id in f.issued && f.issued[f.resources[host.id].id] == host.id)
            && Offers(f, t.hosts[host.id].planId)
  {
    var t, p := w.core.tables, w.core.worker.pass;
    assert Agrees(t, p.snapshot[p.i]);
    var host := w.core.worker.point.host;
    assert Assigned(t.hosts[host.id], t.claims[t.hosts[host.id].claimId].spec, w.fake.plans);
  }

  lemma ObserveKeepsSound(w: World, a: WorldAction, obs: Observed, w': World)
    requires Sound(w) && WorldStep(w, a, w') && (a == Of(DoObserve(obs)) || a == ProviderFails(DoObserve(obs)))
    ensures Sound(w')
  {
    hide SetCondition, OnLiveObservation, OnDeletingObservation, ObserveHost, RowBacked, Assigned, Backed, PassBacked,
         PassOk, TablesOk;
    ObserveKeepsSafe(w.core, obs);
    CurrentHost(w);
    var c, f := w.core, w.fake;
    var p, claim, host := c.worker.pass, c.worker.point.claim, c.worker.point.host;
    ObserveCases(f, host.id);
    if p.live {
      LivePointBacked(c.tables, f, p, claim, host, obs, p.now, c.clock);
    } else {
      DeletingPointBacked(c.tables, f, p, claim, host, obs, p.now, c.clock);
    }
    assert Schema(c.tables) by { SafeHasSchema(c); }
    FaultsDoNotMatter(c.tables, f, w'.fake.faults, p, w'.core.worker.point);
  }

  lemma SafeHasSchema(c: Core)
    requires Safe(c)
    ensures Schema(c.tables)
  {}

  lemma CreateKeepsSound(w: World, a: WorldAction, creation: Creation, newId: ResourceId, w': World)
    requires Sound(w) && WorldStep(w, a, w')
    requires a == Of(DoCreate(creation, newId)) || a == ProviderFails(DoCreate(creation, newId))
    ensures Sound(w')
  {
    hide SetCondition, CreateResource, RowBacked, Assigned, Backed, PassBacked, PassOk, TablesOk, OnCreation;
    var c, f := w.core, w.fake;
    var p, claim, host := c.worker.pass, c.worker.point.claim, c.worker.point.host;
    CreateKeepsSafe(c, creation, newId);
    CurrentHost(w);
    CreateAnswers(f, host.id, host.row.planId, newId);
    SafeHasSchema(c);
    CreateKeepsBacked(c.tables, f, host, newId, creation, w'.fake);
    CreatePointBacked(c.tables, f, p, claim, host, newId, creation, w'.fake, p.now, c.clock);
  }

  /** The effect of a create for a host without a resource: all of it when the
      call succeeds, none when it is rejected, either when it fails. */
  predicate CreateEffect(f: FakeDb, f': FakeDb, host: HostRecord, newId: ResourceId, creation: Creation) {
    || (SameButFaults(Inserted(f, host.id, host.row.planId, newId), f')
        && (|| creation == Ok(CreateOutcome.OutcomeUnknown)
            || creation == Ok(Created(ProviderResource(newId, host.id, ProviderLifecycle.Ready)))
            || IsTransient(creation)))
    || (SameButFaults(f, f') && creation.Err?)
  }

  lemma CreateKeepsBacked(t: Tables, f: FakeDb, host: HostRecord, newId: ResourceId, creation: Creation, f': FakeDb)
    requires Schema(t) && Backed(t, f) && host.id !in f.resources && newId !in f.issued
    requires host.id in t.hosts && t.hosts[host.id] == host.row && host.row.phase == HostPhase.Provisioning
    requires CreateEffect(f, f', host, newId, creation)
    ensures Backed(t, f')
  {
    hide ReadyIs, HasReadyHost, Assigned, RowBacked, CatalogOk, CreateEffect;
    EffectKeepsPlans(f, f', host, newId, creation);
    forall h | h in t.hosts
      ensures RowBacked(h, t.hosts[h], f', Released(t.claims[t.hosts[h].claimId]))
    {
      EffectKeepsRow(t.hosts[h], h, Released(t.claims[t.hosts[h].claimId]), f, f', host, newId, creation);
    }
    forall h | h in f'.resources ensures ResourceBacked(t, f', h) {
      EffectKeepsResource(t, h, f, f', host, newId, creation);
    }
    BackedFrom(t, f');
  }

  lemma EffectKeepsPlans(f: FakeDb, f': FakeDb, host: HostRecord, newId: ResourceId, creation: Creation)
    requires CreateEffect(f, f', host, newId, creation)
    ensures f'.plans == f.plans
  {}

  lemma EffectKeepsRow(row: HostRow, h: HostId, released: bool, f: FakeDb, f': FakeDb, host: HostRecord,
                       newId: ResourceId, creation: Creation)
    requires host.id !in f.resources && newId !in f.issued && CreateEffect(f, f', host, newId, creation)
    requires h == host.id ==> row.phase == HostPhase.Provisioning
    requires RowBacked(h, row, f, released)
    ensures RowBacked(h, row, f', released)
  {}

  lemma EffectKeepsResource(t: Tables, h: HostId, f: FakeDb, f': FakeDb, host: HostRecord, newId: ResourceId,
                            creation: Creation)
    requires newId !in f.issued && CreateEffect(f, f', host, newId, creation)
    requires host.id in t.hosts && t.hosts[host.id] == host.row && h in f'.resources
    requires h in f.resources ==> ResourceBacked(t, f, h)
    ensures ResourceBacked(t, f', h)
  {}

  lemma CreatePointBacked(t: Tables, f: FakeDb, p: Pass, claim: ClaimRecord, host: HostRecord, newId: ResourceId,
                          creation: Creation, f': FakeDb, nowMs: i64, now: Timestamp)
    requires p.live && host.id !in f.resources && newId !in f.issued
    requires host.id in t.hosts && t.hosts[host.id] == host.row
    requires host.row.phase == HostPhase.Provisioning && host.row.resourceId.None?
    requires CreateEffect(f, f', host, newId, creation)
    ensures var b := OnCreation(claim, host, creation, nowMs, now);
            PointBacked(t, f', p, Save(b.claim, b.host, ThenPersist(Progress)))
  {
    hide SetCondition;
  }

  lemma DeleteKeepsBacked(t: Tables, f: FakeDb, host: HostId, f': FakeDb)
    requires Schema(t) && Backed(t, f) && host in t.hosts && t.hosts[host].phase == HostPhase.Deleting
    requires f' == f.(faults := f'.faults, resources := f'.resources)
    requires f'.resources == f.resources || f'.resources == f.resources - {host}
    ensures Backed(t, f')
  {
    hide ReadyIs, HasReadyHost, Assigned;
    forall h | h in t.hosts
      ensures RowBacked(h, t.hosts[h], f', Released(t.claims[t.hosts[h].claimId]))
    {
      assert RowBacked(h, t.hosts[h], f, Released(t.claims[t.hosts[h].claimId]));
    }
  }

  lemma DeletePointBacked(t: Tables, f: FakeDb, p: Pass, claim: ClaimRecord, host: HostRecord, deletion: Deletion,
                          f': FakeDb, nowMs: i64)
    requires !p.live && RowBacked(host.id, host.row, f, true) && host.row.phase == HostPhase.Deleting
    requires f' == f.(faults := f'.faults, resources := f'.resources)
    requires f'.resources == f.resources || f'.resources == f.resources - {host.id}
    ensures PointBacked(t, f', p, Save(claim, OnDeletion(host, deletion, nowMs), ThenProgress))
  {}

  lemma DeleteKeepsSound(w: World, a: WorldAction, deletion: Deletion, w': World)
    requires Sound(w) && WorldStep(w, a, w') && (a == Of(DoDelete(deletion)) || a == ProviderFails(DoDelete(deletion)))
    ensures Sound(w')
  {
    hide SetCondition, DeleteResource, RowBacked, Assigned, Backed, PassBacked, PassOk, TablesOk, OnDeletion;
    var c, f := w.core, w.fake;
    var p, claim, host := c.worker.pass, c.worker.point.claim, c.worker.point.host;
    DeleteKeepsSafe(c, deletion);
    CurrentHost(w);
    DeleteAnswers(f, host.id);
    SafeHasSchema(c);
    DeleteKeepsBacked(c.tables, f, host.id, w'.fake);
    DeletePointBacked(c.tables, f, p, claim, host, deletion, w'.fake, p.now);
  }

  /** A selected plan is an enabled row of the catalogue that meets the claim. */
  lemma SelectedIsPlan(plans: seq<PlanRow>, spec: HostResources)
    requires CatalogOk(plans) && Storable(spec)
    ensures var s := SelectPlan(plans, spec);
            && s.Ok?
            && (s.value.Some? ==>
                  && s.value.value.resources.Meets(spec) && Storable(s.value.value.resources)
                  && exists q | q in plans :: IsPlan(q, s.value.value.id, s.value.value.resources))
  {
    SelectionIsOptimal(plans, spec);
    SelectionSucceeds(plans, spec);
    var s := SelectPlan(plans, spec);
    if s.value.Some? {
      var b :| && IsOptimum(plans, spec, b) && b.id == s.value.value.id
               && s.value.value.resources == HostResources(b.vcpus, b.memoryBytes, b.storageBytes);
      assert IsPlan(b, s.value.value.id, s.value.value.resources);
    }
  }

  /** What the invariant says about the claim a plan is selected for. */
  lemma SelectFacts(w: World)
    requires Sound(w) && w.core.worker.Busy? && w.core.worker.point.Select?
    ensures var p, claim := w.core.worker.pass, w.core.worker.point.claim;
            && p.live && claim.hostId.None? && !ReadyIs(claim.row.conditions, True)
            && CatalogOk(w.fake.plans) && Storable(claim.row.spec)
  {
    SelectedSpecIsStorable(w.core);
  }

  lemma SelectKeepsSound(w: World, a: WorldAction, selected: Selected, w': World)
    requires Sound(w) && WorldStep(w, a, w') && (a == Of(DoSelect(selected)) || a == ProviderFails(DoSelect(selected)))
    ensures Sound(w')
    ensures a.Of? ==> selected.Ok?
  {
    hide Sound, Safe, SetCondition, T.ScheduleClaimError, T.MarkUnsatisfiable, T.ShowsUnsatisfiable, SelectPlan,
         Backed, PassBacked, Schema, HasReadyHost, Best, CatalogOk, IsPlan, Agrees, Storable;
    var claim := w.core.worker.point.claim;
    SoundParts(w);
    SelectKeepsSafe(w.core, selected);
    SelectFacts(w);
    SelectedIsPlan(w.fake.plans, claim.row.spec);
    T.MarkUnsatisfiableSettles(claim, w.core.clock);
    NothingSelected(w.fake.plans, claim.row.spec);
    PassBackedMoves(w.core.tables, w.core.worker.pass);
    SoundFrom(w');
  }

  lemma PassBackedMoves(t: Tables, p: Pass)
    requires PassBacked(t, p)
    ensures PassBacked(t, p.(i := p.i + 1))
  {}

  lemma NothingSelected(plans: seq<PlanRow>, r: HostResources)
    requires Storable(r)
    ensures SelectPlan(plans, r) == Ok(None) <==> Best(plans, r).None?
  {}

  lemma SelectedSpecIsStorable(c: Core)
    requires Safe(c) && c.worker.Busy? && c.worker.point.Select?
    ensures Storable(c.worker.point.claim.row.spec)
  {
    assert Agrees(c.tables, c.worker.pass.snapshot[c.worker.pass.i]);
  }

  /* ---------- storage calls ---------- */

  lemma NotRecordedElsewhere(t: Tables, f: FakeDb, host: HostRecord)
    requires Schema(t) && Backed(t, f) && host.row.resourceId.Some?
    requires host.row.resourceId.value in f.issued && f.issued[host.row.resourceId.value] == host.id
    ensures !RecordedElsewhere(t, host.id, host.row.resourceId.value)
  {}

  /** Replacing a host row by one that matches the provider. */
  lemma ReplacedRowBacked(t: Tables, u: Tables, f: FakeDb, host: HostRecord)
    requires Schema(t) && Backed(t, f) && host.id in t.hosts && SameHost(host.row, t.hosts[host.id])
    requires u == t.(hosts := t.hosts[host.id := host.row]) && Schema(u)
    requires RowBacked(host.id, host.row, f, Released(t.claims[t.hosts[host.id].claimId]))
    requires forall id :: id in u.claims && ReadyIs(u.claims[id].conditions, True) ==> HasReadyHost(u, id)
    ensures Backed(u, f)
  {
    hide ReadyIs, HasReadyHost, Assigned, RowBacked, CatalogOk;
    assert Assigned(host.row, t.claims[host.row.claimId].spec, f.plans) by {
      SameAssigned(host.row, t.hosts[host.id], t.claims[host.row.claimId].spec, f.plans);
    }
    BackedFrom(u, f);
  }

  lemma SameAssigned(a: HostRow, b: HostRow, spec: HostResources, plans: seq<PlanRow>)
    requires SameHost(a, b) && Assigned(b, spec, plans)
    ensures Assigned(a, spec, plans)
  {}

  /** No claim is left Ready without a Ready host. */
  lemma ReadyClaimsKeepHost(t: Tables, u: Tables, f: FakeDb, host: HostRecord)
    requires Schema(t) && Backed(t, f) && host.id in t.hosts && SameHost(host.row, t.hosts[host.id])
    requires u == t.(hosts := t.hosts[host.id := host.row])
    requires host.row.phase == HostPhase.Ready || t.hosts[host.id].phase != HostPhase.Ready
             || !ReadyIs(t.claims[t.hosts[host.id].claimId].conditions, True)
    ensures forall id :: id in u.claims && ReadyIs(u.claims[id].conditions, True) ==> HasReadyHost(u, id)
  {
    hide RowBacked, Assigned;
    forall id | id in u.claims && ReadyIs(u.claims[id].conditions, True) ensures HasReadyHost(u, id) {
      var h :| Owns(t, h, id) && t.hosts[h].phase == HostPhase.Ready;
      assert h == host.id ==> u.hosts[h].phase == HostPhase.Ready;
      assert Owns(u, h, id);
    }
  }

  /** The save of a row that matches the provider succeeds, writes exactly that
      row, and keeps the whole table matching. */
  lemma SaveKeepsBacked(t: Tables, clock: Timestamp, f: FakeDb, p: Pass, claim: ClaimRecord, host: HostRecord,
                        after: AfterSave)
    requires TablesOk(t, clock) && Backed(t, f) && PassOk(t, clock, p)
    requires PointOk(t, clock, p, Save(claim, host, after)) && SaveBacked(t, f, p, claim, host, after)
    ensures var reply := SaveHost(t, host);
            && reply.result.Ok? && Schema(reply.tables) && Backed(reply.tables, f)
            && reply.tables == t.(hosts := t.hosts[host.id := host.row])
  {
    hide Backed, Assigned, LiveHostOk;
    assert Agrees(t, p.snapshot[p.i]);
    if host.row.resourceId.Some? { NotRecordedElsewhere(t, f, host); }
    SaveHostKeepsSchema(t, host);
    var u := SaveHost(t, host).tables;
    assert WithObservation(t.hosts[host.id], host.row) == host.row;
    ReadyClaimsKeepHost(t, u, f, host);
    BackedRow(t, f, host.id);
    ReplacedRowBacked(t, u, f, host);
  }

  lemma BackedRow(t: Tables, f: FakeDb, h: HostId)
    requires Schema(t) && Backed(t, f) && h in t.hosts
    ensures RowBacked(h, t.hosts[h], f, Released(t.claims[t.hosts[h].claimId]))
  {}

  lemma SaveKeepsPassBacked(t: Tables, clock: Timestamp, f: FakeDb, p: Pass, claim: ClaimRecord, host: HostRecord,
                            after: AfterSave)
    requires Schema(t) && PassOk(t, clock, p) && PassBacked(t, p)
    requires PointOk(t, clock, p, Save(claim, host, after)) && SaveBacked(t, f, p, claim, host, after)
    ensures PassBacked(t.(hosts := t.hosts[host.id := host.row]), p)
  {
    forall k | 0 <= k < |p.snapshot| && p.snapshot[k].hostId == Some(host.id) ensures k == p.i {
      assert Agrees(t, p.snapshot[k]);
      assert Agrees(t, p.snapshot[p.i]);
    }
  }

  /** The points after a save that succeeded. */
  lemma SavedPointBacked(w: World)
    requires Sound(w) && At(w.core, DoSave) && SaveHost(w.core.tables, w.core.worker.point.host).result.Ok?
    ensures var c := AfterSaving(w.core);
            c.worker.Busy? ==>
              c.worker.pass == w.core.worker.pass && PointBacked(c.tables, w.fake, c.worker.pass, c.worker.point)
  {
    hide SetCondition, RowBacked, Assigned, Backed, PassBacked, PassOk, TablesOk, Schema, SaveHost;
    CurrentHost(w);
    var host, claim := w.core.worker.point.host, w.core.worker.point.claim;
    var u := SaveHost(w.core.tables, host).tables;
    SaveFinds(w.core.tables, host, claim.id);
  }

  lemma SaveFinds(t: Tables, host: HostRecord, id: HostClaimId)
    requires host.id in t.hosts && t.hosts[host.id].claimId == id && SaveHost(t, host).result.Ok?
    ensures var u := SaveHost(t, host).tables;
            host.id in u.hosts && (host.row.phase == HostPhase.Ready ==> HasReadyHost(u, id))
  {
    var u := SaveHost(t, host).tables;
    assert Owns(u, host.id, id);
  }

  lemma SaveKeepsSound(w: World, w': World)
    requires Sound(w) && WorldStep(w, Of(DoSave), w')
    ensures Sound(w')
    ensures SaveHost(w.core.tables, w.core.worker.point.host).result.Ok?
  {
    hide Sound, Safe, SetCondition, SaveHost, RowBacked, Assigned, Backed, PassBacked, PassOk, TablesOk, PointOk,
         Schema, AfterSaving;
    var c := w.core;
    var p, claim, host, after := c.worker.pass, c.worker.point.claim, c.worker.point.host, c.worker.point.after;
    SoundParts(w);
    SaveKeepsSafe(c);
    SaveKeepsBacked(c.tables, c.clock, w.fake, p, claim, host, after);
    SaveKeepsPassBacked(c.tables, c.clock, w.fake, p, claim, host, after);
    SavedPointBacked(w);
    StepOnTables(c, DoSave, w'.core);
    SoundFrom(w');
  }

  lemma PersistKeepsBacked(t: Tables, f: FakeDb, claim: ClaimRecord)
    requires Schema(t) && Backed(t, f)
    requires ReadyIs(claim.row.conditions, True) ==> HasReadyHost(t, claim.id)
    ensures Backed(SaveClaimStatus(t, claim), f)
  {
    hide RowBacked, Assigned, CatalogOk, ReadyIs;
    var u := SaveClaimStatus(t, claim);
    forall id | id in u.claims && ReadyIs(u.claims[id].conditions, True) ensures HasReadyHost(u, id) {
      var h :| Owns(t, h, id) && t.hosts[h].phase == HostPhase.Ready;
      assert Owns(u, h, id);
    }
  }

  lemma PersistKeepsSound(w: World, w': World)
    requires Sound(w) && WorldStep(w, Of(DoPersist), w')
    ensures Sound(w')
  {
    hide SetCondition, RowBacked, Assigned, Backed, PassOk, TablesOk, PointOk, Schema;
    PersistKeepsSafe(w.core);
    SafeHasSchema(w.core);
    PersistKeepsBacked(w.core.tables, w.fake, w.core.worker.point.claim);
  }

  lemma FinalizeKeepsBacked(t: Tables, f: FakeDb, claim: ClaimRecord)
    requires Schema(t) && Backed(t, f) && Agrees(t, claim)
    requires claim.hostId.Some? ==> claim.hostId.value !in f.resources
    ensures var u := FinalizeClaim(t, claim.id).tables;
            Schema(u) && Backed(u, f)
  {
    hide ReadyIs, Assigned, CatalogOk, RowBacked, HasReadyHost;
    var u := FinalizeClaim(t, claim.id).tables;
    FinalizeKeepsSchema(t, claim.id);
    forall h | h in f.resources ensures ResourceBacked(u, f, h) {
      assert ResourceBacked(t, f, h);
      OwnerHasNoResource(t, f, claim, h);
    }
    forall id | id in u.claims && ReadyIs(u.claims[id].conditions, True) ensures HasReadyHost(u, id) {
      ReadyHostSurvives(t, claim.id, id);
    }
    BackedFrom(u, f);
  }

  lemma OwnerHasNoResource(t: Tables, f: FakeDb, claim: ClaimRecord, h: HostId)
    requires Schema(t) && Agrees(t, claim) && h in t.hosts && h in f.resources
    requires claim.hostId.Some? ==> claim.hostId.value !in f.resources
    ensures t.hosts[h].claimId != claim.id
  {}

  lemma ReadyHostSurvives(t: Tables, gone: HostClaimId, id: HostClaimId)
    requires HasReadyHost(t, id) && id != gone
    ensures HasReadyHost(FinalizeClaim(t, gone).tables, id)
  {
    var h :| Owns(t, h, id) && t.hosts[h].phase == HostPhase.Ready;
    assert Owns(FinalizeClaim(t, gone).tables, h, id);
  }

  lemma FinalizeFacts(w: World)
    requires Sound(w) && w.core.worker.Busy? && w.core.worker.point.Finalize?
    ensures var claim := w.core.worker.point.claim;
            Agrees(w.core.tables, claim) && (claim.hostId.Some? ==> claim.hostId.value !in w.fake.resources)
  {
    hide Backed, PassBacked, TablesOk;
    assert Agrees(w.core.tables, w.core.worker.pass.snapshot[w.core.worker.pass.i]);
  }

  lemma FinalizeKeepsSound(w: World, w': World)
    requires Sound(w) && WorldStep(w, Of(DoFinalize), w')
    ensures Sound(w')
  {
    hide Sound, Safe, Backed, Agrees, Schema, FinalizeClaim, SetCondition;
    SoundParts(w);
    FinalizeFacts(w);
    FinalizeKeepsSafe(w.core);
    FinalizeKeepsBacked(w.core.tables, w.fake, w.core.worker.point.claim);
    SoundFrom(w');
  }

  /** Assigning a fresh pending host keeps everything backed. */
  lemma PendingIsBacked(t: Tables, u: Tables, f: FakeDb, newHost: HostId, host: HostRow, released: bool)
    requires Schema(t) && Backed(t, f) && newHost !in t.hosts
    requires host.phase == HostPhase.Pending && host.resourceId.None?
    ensures RowBacked(newHost, host, f, released)
  {
    hide Assigned, HasReadyHost, CatalogOk;
    assert newHost in f.resources ==> ResourceBacked(t, f, newHost);
  }

  lemma ResourceStays(t: Tables, u: Tables, f: FakeDb, newHost: HostId, host: HostRow, h: HostId)
    requires h in f.resources && ResourceBacked(t, f, h) && newHost !in t.hosts && u.hosts == t.hosts[newHost := host]
    ensures ResourceBacked(u, f, h)
  {}

  lemma AssignedRowBacked(t: Tables, u: Tables, f: FakeDb, id: HostClaimId, row: ClaimRow, newHost: HostId,
                          host: HostRow)
    requires Schema(t) && Schema(u) && Backed(t, f) && id in t.claims && newHost !in t.issued
    requires u == Tables(t.claims[id := row], t.hosts[newHost := host], t.issued + {newHost})
    requires host.claimId == id && host.phase == HostPhase.Pending && host.resourceId.None?
    requires Assigned(host, row.spec, f.plans) && row.spec == t.claims[id].spec
    requires row.deletionTimestamp == t.claims[id].deletionTimestamp
    requires !ReadyIs(row.conditions, True)
    ensures Backed(u, f)
  {
    hide ReadyIs, HasReadyHost, Assigned, CatalogOk, RowBacked, ResourceBacked;
    PendingIsBacked(t, u, f, newHost, host, Released(row));
    forall h | h in f.resources ensures ResourceBacked(u, f, h) {
      ResourceStays(t, u, f, newHost, host, h);
    }
    forall x | x in u.claims && ReadyIs(u.claims[x].conditions, True) ensures HasReadyHost(u, x) {
      ReadyHostRemains(t, u, newHost, host, x);
    }
    BackedFrom(u, f);
  }

  lemma ReadyHostRemains(t: Tables, u: Tables, newHost: HostId, host: HostRow, x: HostClaimId)
    requires HasReadyHost(t, x) && u.hosts == t.hosts[newHost := host] && newHost !in t.hosts
    ensures HasReadyHost(u, x)
  {
    var h :| Owns(t, h, x) && t.hosts[h].phase == HostPhase.Ready;
    assert Owns(u, h, x);
  }

  lemma EnsureKeepsBacked(t: Tables, clock: Timestamp, f: FakeDb, claim: ClaimRecord, plan: Plan, newHost: HostId)
    requires TablesOk(t, clock) && Backed(t, f) && Agrees(t, claim) && claim.hostId.None? && newHost !in t.issued
    requires PointBacked(t, f, Pass(0, [], true, 0), Ensure(claim, plan))
    ensures var u := EnsureHost(t, claim.id, plan.id, plan.resources, newHost, clock).tables;
            Schema(u) && Backed(u, f)
  {
    hide SetCondition, Backed;
    var u := EnsureHost(t, claim.id, plan.id, plan.resources, newHost, clock).tables;
    EnsureHostKeepsSchema(t, claim.id, plan.id, plan.resources, newHost, clock);
    if u != t {
      var row := AssignedClaimRow(t.claims[claim.id], newHost, clock);
      AssignedClaimIsNotReady(t.claims[claim.id], newHost, clock);
      AssignedRowBacked(t, u, f, claim.id, row, newHost, InitialHost(claim.id, plan.resources, plan.id, clock));
    }
  }

  lemma AssignedClaimIsNotReady(row: ClaimRow, h: HostId, now: Timestamp)
    ensures !ReadyIs(AssignedClaimRow(row, h, now).conditions, True)
  {
    var cs := SetCondition(row.conditions,
                           Condition(ACCEPTED, True, RequirementsValid, PolicySatisfies, row.generation,
                                     now)).conditions;
    var cs' := SetCondition(cs, Condition(BOUND, True, HostAssigned, AssignedHost(h), row.generation, now)).conditions;
    SetConditionRefinesMapUpdate(cs', Condition(READY, False, HostNotReady, HostNotReadyYet, row.generation, now),
                                 READY);
  }

  /** What the invariant says about the claim about to be bound. */
  lemma EnsureFacts(w: World)
    requires Sound(w) && w.core.worker.Busy? && w.core.worker.point.Ensure?
    ensures var t, p, point := w.core.tables, w.core.worker.pass, w.core.worker.point;
            && TablesOk(t, w.core.clock) && Backed(t, w.fake) && PassBacked(t, p)
            && Agrees(t, point.claim) && point.claim.hostId.None?
            && PointBacked(t, w.fake, Pass(0, [], true, 0), point)
  {
    hide Backed, PassBacked, TablesOk;
    assert Agrees(w.core.tables, w.core.worker.pass.snapshot[w.core.worker.pass.i]);
  }

  lemma SoundFrom(w: World)
    requires Safe(w.core) && Schema(w.core.tables) && Backed(w.core.tables, w.fake)
    requires w.core.worker.Busy? ==>
               && PassBacked(w.core.tables, w.core.worker.pass)
               && PointBacked(w.core.tables, w.fake, w.core.worker.pass, w.core.worker.point)
    ensures Sound(w)
  {
    hide Backed, PassBacked, PointBacked, Safe;
  }

  lemma EnsureKeepsSound(w: World, newHost: HostId, w': World)
    requires Sound(w) && WorldStep(w, Of(DoEnsure(newHost)), w')
    ensures Sound(w')
  {
    hide Sound, Safe, TablesOk, Schema, Agrees, SetCondition, EnsureHost, Backed;
    var c := w.core;
    var claim, plan := c.worker.point.claim, c.worker.point.plan;
    SoundParts(w);
    EnsureFacts(w);
    EnsureKeepsSafe(c, newHost);
    EnsureKeepsBacked(c.tables, c.clock, w.fake, claim, plan, newHost);
    EnsureErrorChangesNothing(c.tables, c.clock, claim, plan, newHost);
    SoundFrom(w');
  }

  lemma EnsureErrorChangesNothing(t: Tables, clock: Timestamp, claim: ClaimRecord, plan: Plan, newHost: HostId)
    ensures var r := EnsureHost(t, claim.id, plan.id, plan.resources, newHost, clock);
            r.result.Err? ==> r.tables == t
  {
    hide SetCondition;
  }

  /* ---------- the rest of a pass ---------- */

  lemma ListedIsBacked(t: Tables, f: FakeDb, s: seq<ClaimRecord>, now: i64)
    requires Schema(t) && Backed(t, f) && IsListing(t, s)
    ensures PassBacked(t, Pass(now, s, false, 0))
  {
    hide Assigned, CatalogOk, ResourceBacked;
    forall k | 0 <= k < |s|
      ensures s[k].hostId.None? ==> !ReadyIs(s[k].row.conditions, True)
      ensures !Released(s[k].row) && s[k].hostId.Some? && s[k].hostId.value in t.hosts ==>
                t.hosts[s[k].hostId.value].phase != HostPhase.Deleting
    {
      assert s[k] == RecordOf(t, s[k].id);
      if s[k].hostId.Some? {
        var h := s[k].hostId.value;
        assert RowBacked(h, t.hosts[h], f, Released(t.claims[t.hosts[h].claimId]));
      }
    }
  }

  lemma ListKeepsSound(w: World, s: seq<ClaimRecord>, w': World)
    requires Sound(w) && WorldStep(w, Of(List(s)), w')
    ensures Sound(w')
  {
    hide Sound, Safe, Backed, IsListing, Schema;
    SoundParts(w);
    ListKeepsSafe(w.core, s);
    ListedIsBacked(w.core.tables, w.fake, s, w.core.worker.now);
    SoundFrom(w');
  }

  lemma ScanKeepsSound(w: World, w': World)
    requires Sound(w) && WorldStep(w, Of(ScanNext), w')
    ensures Sound(w')
  {
    hide Backed, RowBacked, Assigned, TablesOk, PassOk, PointOk;
    ScanKeepsSafe(w.core);
  }

  lemma FetchKeepsSound(w: World, w': World)
    requires Sound(w) && WorldStep(w, Of(DoFetch), w')
    ensures Sound(w')
  {
    hide Backed, RowBacked, Assigned, TablesOk, PassOk, PointOk;
    FetchKeepsSafe(w.core);
  }

  lemma OutsideKeepsSound(w: World, a: Action, w': World)
    requires Sound(w) && WorldStep(w, Of(a), w')
    requires a.RpcWake? || a.Tick? || a.Crash? || a.Restart? || a.Resume? || a.WakeSelf? || a.ListFails?
             || a.StorageFails?
    ensures Sound(w')
  {
    hide Backed, RowBacked, Assigned, TablesOk, PassOk, PointOk, PassBacked, PointBacked;
    StepKeepsSafe(w.core, a, w'.core);
  }

  lemma InjectionKeepsSound(w: World, kind: Fault, n: nat, w': World)
    requires Sound(w) && WorldStep(w, InjectFault(kind, n), w')
    ensures Sound(w')
  {
    hide Backed, RowBacked, Assigned, TablesOk, PassOk, PointOk, PassBacked, PointBacked, Schema;
    SafeHasSchema(w.core);
    var p := if w.core.worker.Busy? then w.core.worker.pass else Pass(0, [], true, 0);
    var point := if w.core.worker.Busy? then w.core.worker.point else Scan;
    FaultsDoNotMatter(w.core.tables, w.fake, w'.fake.faults, p, point);
  }

  /** Whatever a provider call did before its I/O error, the step allows it. */
  lemma EffectsBeforeFailure(w: World, h: HostId, planId: PlanId, newId: ResourceId)
    ensures SameButFaults(w.fake, ObserveHost(w.fake, h).db)
    ensures var f' := CreateResource(w.fake, h, planId, newId).db;
            || SameButFaults(w.fake, f')
            || (h !in w.fake.resources && Offers(w.fake, planId)
                && SameButFaults(Inserted(w.fake, h, planId, newId), f'))
    ensures var f' := DeleteResource(w.fake, h).db;
            SameButFaults(w.fake, f') || SameButFaults(w.fake.(resources := w.fake.resources - {h}), f')
  {}

  lemma OnlyProviderCallsFail(w: World, a: Action, w': World)
    requires WorldStep(w, ProviderFails(a), w')
    ensures a.DoObserve? || a.DoCreate? || a.DoDelete? || a.DoSelect?
  {
    hide Step;
  }

  lemma WorldStepKeepsSound(w: World, a: WorldAction, w': World)
    requires Sound(w) && WorldStep(w, a, w')
    ensures Sound(w')
  {
    hide Sound, WorldStep;
    match a
    case InjectFault(kind, n) => InjectionKeepsSound(w, kind, n, w');
    case ProviderFails(DoObserve(obs)) => ObserveKeepsSound(w, a, obs, w');
    case ProviderFails(DoCreate(creation, r)) => CreateKeepsSound(w, a, creation, r, w');
    case ProviderFails(DoDelete(deletion)) => DeleteKeepsSound(w, a, deletion, w');
    case ProviderFails(DoSelect(selected)) => SelectKeepsSound(w, a, selected, w');
    case ProviderFails(action) => OnlyProviderCallsFail(w, action, w');
    case Of(action) =>
      match action
      case RpcCreate(_, _) => RpcKeepsSound(w, action, w');
      case RpcDelete(_) => RpcKeepsSound(w, action, w');
      case List(s) => ListKeepsSound(w, s, w');
      case ScanNext => ScanKeepsSound(w, w');
      case DoFetch => FetchKeepsSound(w, w');
      case DoObserve(obs) => ObserveKeepsSound(w, a, obs, w');
      case DoSave => SaveKeepsSound(w, w');
      case DoCreate(creation, r) => CreateKeepsSound(w, a, creation, r, w');
      case DoDelete(deletion) => DeleteKeepsSound(w, a, deletion, w');
      case DoPersist => PersistKeepsSound(w, w');
      case DoFinalize => FinalizeKeepsSound(w, w');
      case DoSelect(selected) => SelectKeepsSound(w, a, selected, w');
      case DoEnsure(h) => EnsureKeepsSound(w, h, w');
      case _ => OutsideKeepsSound(w, action, w');
  }
}
