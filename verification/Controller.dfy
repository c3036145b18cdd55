/** The Host controller as the object that runs the loop.

    Everything else in the system acts at its await points: there any number of
    RPC commits, wakes, clock advances and fault injections may happen.  The
    object carries, as ghost state, the run of the step machine it has performed
    so far; that the run stays one is the contract of every method. */
module Controller {
  import opened Wrappers
  import opened Domain
  import opened Provider
  import opened Tables
  import opened Protocol
  import opened Catalog
  import opened Fake
  import opened FakeSystem
  import opened Database
  import opened FakeDatabase
  import opened Copies
  import T = Transitions
  import Spec = Tables

  /** What the rest of the system may do while the controller awaits. */
  datatype Move =
    | CommitCreate(id: HostClaimId, spec: HostResources)
    | CommitDelete(id: HostClaimId)
    | HandlerWakes(mutation: nat)
    | TimePasses(clock: Timestamp)
    | FaultInjected(kind: Fault, count: nat)

  lemma NoProviderCall(w: World, a: Action)
    requires !a.DoObserve? && !a.DoCreate? && !a.DoDelete? && !a.DoSelect?
    ensures Answers(w, a, w.fake)
  {}

  class HostController {
    const storage: Storage
    const provider: FakeProvider
    var permit: bool
    var clock: Timestamp
    var mutations: nat
    var unwoken: set<nat>

    ghost var worker: Worker
    ghost var listed: nat
    ghost var lastDrain: DrainEnd
    ghost var log: seq<Event>
    ghost var states: seq<World>
    ghost var actions: seq<WorldAction>

    ghost function Now(): World
      reads this, storage, provider
    {
      World(Core(storage.tables, clock, worker, permit, mutations, unwoken, listed, lastDrain, log), provider.db)
    }

    /** The states so far are a run of the machine that has reached this moment. */
    ghost predicate Valid()
      reads this, storage, provider
    {
      && storage.Valid()
      && WorldRun(states, actions) && WorldInit(states[0]) && states[|actions|] == Now()
    }

    /** A process that has not started yet, over an empty database and an empty
        provider with this catalogue. */
    constructor (storage: Storage, provider: FakeProvider, clock: Timestamp)
      requires storage.tables == EMPTY
      requires CatalogOk(provider.db.plans) && provider.db.resources == map[] && provider.db.issued == map[]
      ensures Valid() && this.storage == storage && this.provider == provider && worker == Down
    {
      this.storage, this.provider, this.clock := storage, provider, clock;
      permit, mutations, unwoken := false, 0, {};
      worker, listed, lastDrain, log := Down, 0, NoDrainYet, [];
      new;
      states, actions := [Now()], [];
    }

    /* ---------- the record of the run ---------- */

    ghost method Follow(c: Core)
      modifies `worker, `listed, `lastDrain, `log
      ensures worker == c.worker && listed == c.listed && lastDrain == c.lastDrain && log == c.log
    {
      worker, listed, lastDrain, log := c.worker, c.listed, c.lastDrain, c.log;
    }

    ghost method Record(before: World, a: WorldAction)
      requires storage.Valid()
      requires WorldRun(states, actions) && WorldInit(states[0]) && states[|actions|] == before
      requires WorldStep(before, a, Now())
      modifies `states, `actions
      ensures Valid() && states == old(states) + [Now()] && actions == old(actions) + [a]
    {
      hide WorldStep, WorldInit;
      ghost var now := Now();
      ghost var ss, aa := states + [now], actions + [a];
      assert forall k :: 0 <= k < |aa| ==> WorldStep(ss[k], aa[k], ss[k + 1]);
      states, actions := ss, aa;
      assert Now() == now;
    }

    /** The worker takes the step to `c`, whose lasting part is already in place. */
    ghost method Commit(before: World, a: Action, c: Core)
      requires storage.Valid()
      requires WorldRun(states, actions) && WorldInit(states[0]) && states[|actions|] == before
      requires Step(before.core, a, c) && (Answers(before, a, provider.db) || FailsAnyhow(before, a, provider.db))
      requires Now().core.(worker := c.worker, listed := c.listed, lastDrain := c.lastDrain, log := c.log) == c
      modifies `worker, `listed, `lastDrain, `log, `states, `actions
      ensures Valid() && old(states) <= states && old(actions) <= actions
      ensures worker == c.worker && listed == c.listed && lastDrain == c.lastDrain && log == c.log
    {
      hide Step, Answers, FailsAnyhow, WorldRun, WorldInit;
      Follow(c);
      Record(before, if Answers(before, a, provider.db) then Of(a) else ProviderFails(a));
    }

    /* ---------- the environment at an await point ---------- */

    /** The create handler commits; its wake comes later. */
    method ServeCreate(id: HostClaimId, spec: HostResources)
      requires Valid() && worker != Down
      modifies this, storage
      ensures Valid() && old(states) <= states && old(actions) <= actions
      ensures worker == old(worker) && listed == old(listed) && lastDrain == old(lastDrain) && log == old(log)
    {
      hide WorldRun, WorldInit, FailsAnyhow, Spec.Schema, Spec.CreateClaim;
      ghost var before := Now();
      var r := storage.CreateClaim(id, spec, clock);
      if r.Ok? { mutations, unwoken := mutations + 1, unwoken + {mutations}; }
      Record(before, Of(RpcCreate(id, spec)));
    }

    /** The delete handler commits; its wake comes later. */
    method ServeDelete(id: HostClaimId)
      requires Valid() && worker != Down
      modifies this, storage
      ensures Valid() && old(states) <= states && old(actions) <= actions
      ensures worker == old(worker) && listed == old(listed) && lastDrain == old(lastDrain) && log == old(log)
    {
      hide WorldRun, WorldInit, FailsAnyhow, Spec.Schema, Spec.MarkClaimDeleting;
      ghost var before := Now();
      var r := storage.MarkClaimDeleting(id, clock);
      if r.Ok? { mutations, unwoken := mutations + 1, unwoken + {mutations}; }
      Record(before, Of(RpcDelete(id)));
    }

    method Perform(move: Move)
      requires Valid() && worker != Down
      modifies this, storage, provider
      ensures Valid() && old(states) <= states && old(actions) <= actions
      ensures worker == old(worker) && listed == old(listed) && lastDrain == old(lastDrain) && log == old(log)
    {
      hide WorldRun, WorldInit, FailsAnyhow, Spec.Schema;
      ghost var before := Now();
      match move {
        case CommitCreate(id, spec) => ServeCreate(id, spec);
        case CommitDelete(id) => ServeDelete(id);
        case HandlerWakes(m) =>
          if m in unwoken {
            unwoken, permit := unwoken - {m}, true;
            Record(before, Of(RpcWake(m)));
          }
        case TimePasses(t) =>
          if clock <= t {
            clock := t;
            Record(before, Of(Tick(t)));
          }
        case FaultInjected(kind, count) =>
          provider.db := provider.db.(faults := provider.db.faults.With(kind, count));
          Record(before, InjectFault(kind, count));
      }
    }

    /** Any number of moves of the others, in any order. */
    method Await()
      requires Valid() && worker != Down
      modifies this, storage, provider
      ensures Valid() && old(states) <= states && old(actions) <= actions
      ensures worker == old(worker) && listed == old(listed) && lastDrain == old(lastDrain) && log == old(log)
    {
      var moves: nat :| true;
      for i := 0 to moves
        invariant Valid() && old(states) <= states && old(actions) <= actions
        invariant worker == old(worker) && listed == old(listed) && lastDrain == old(lastDrain) && log == old(log)
      {
        var move: Move := *;
        Perform(move);
      }
    }

    /* ---------- where the worker is ---------- */

    ghost predicate IsAt(point: Point)
      reads this
    {
      worker.Busy? && worker.point == point
    }

    /** The pass of a drain that had completed so many is over. */
    ghost predicate PassOver(used: nat, end: PassEnd)
      reads this
    {
      && log != [] && log[|log| - 1] == PassEnded(end)
      && match end
         case Finished(Progress) =>
           worker == if used + 1 >= MAX_STEPS_PER_WAKE then LimitReached
                     else Listing(used + 1, NowUnixMs(clock))
         case Finished(Idle) => worker == Parked && lastDrain == BecameIdle
         case Aborted(_) => worker == Parked && lastDrain == StoppedByError
    }

    /** The claim this worker was at is done with this result. */
    ghost predicate ClaimOver(was: Worker, r: Result<PassResult, AppError>)
      requires was.Busy?
      reads this
    {
      match r
      case Ok(Progress) => PassOver(was.used, Finished(Progress))
      case Ok(Idle) => worker == was.(pass := was.pass.(i := was.pass.i + 1), point := Scan)
      case Err(e) => PassOver(was.used, Aborted(e))
    }

    /* ---------- calls to the provider ---------- */

    // A call may also report an I/O error, before or after its effect.

    method Observe(claim: ClaimRecord, host: HostRecord, nowMs: i64) returns (obs: Observed)
      requires Valid() && IsAt(Point.Observe(claim, host)) && nowMs == worker.pass.now
      modifies this, storage, provider
      ensures Valid() && old(states) <= states && old(actions) <= actions
      ensures worker == old(worker).(point :=
                if old(worker).pass.live then OnLiveObservation(claim, host, obs, nowMs, clock)
                else OnDeletingObservation(claim, host, obs, nowMs, clock))
    {
      hide OnLiveObservation, OnDeletingObservation, ObserveHost;
      Await();
      ghost var before := Now();
      var broken: bool := *;
      EffectsBeforeFailure(before, host.id, host.row.planId, 0);
      obs := provider.Observe(host.id);
      if broken { obs := Err(Transient(IO_ERROR)); }
      Commit(before, DoObserve(obs), AfterObserve(before.core, obs));
    }

    method Create(claim: ClaimRecord, host: HostRecord, nowMs: i64) returns (creation: Creation)
      requires Valid() && IsAt(Point.Create(claim, host)) && nowMs == worker.pass.now
      modifies this, storage, provider
      ensures Valid() && old(states) <= states && old(actions) <= actions
      ensures var b := OnCreation(claim, host, creation, nowMs, clock);
              worker == old(worker).(point := Save(b.claim, b.host, ThenPersist(Progress)))
    {
      hide OnCreation, CreateResource;
      Await();
      ghost var before := Now();
      SomeIdIsNew(provider.db.issued.Keys);
      var newId: ResourceId :| newId !in provider.db.issued.Keys;
      var broken: bool, effective: bool := *, *;
      EffectsBeforeFailure(before, host.id, host.row.planId, newId);
      if effective || !broken { creation := provider.Create(host.id, host.row.planId, newId); }
      if broken { creation := Err(Transient(IO_ERROR)); }
      Commit(before, DoCreate(creation, newId), AfterCreate(before.core, creation));
    }

    method Delete(claim: ClaimRecord, host: HostRecord, nowMs: i64) returns (deletion: Deletion)
      requires Valid() && IsAt(Point.Delete(claim, host)) && nowMs == worker.pass.now
      modifies this, storage, provider
      ensures Valid() && old(states) <= states && old(actions) <= actions
      ensures worker == old(worker).(point := Save(claim, OnDeletion(host, deletion, nowMs), ThenProgress))
    {
      hide OnDeletion, DeleteResource;
      Await();
      ghost var before := Now();
      var broken: bool, effective: bool := *, *;
      EffectsBeforeFailure(before, host.id, host.row.planId, 0);
      if effective || !broken { deletion := provider.Delete(host.id); }
      if broken { deletion := Err(Transient(IO_ERROR)); }
      Commit(before, DoDelete(deletion), AfterDelete(before.core, deletion));
    }

    /* ---------- calls to the storage ---------- */

    /** The transaction fails and is rolled back. */
    ghost method Fail()
      requires Valid() && AtStorageCall(Now().core)
      modifies `worker, `listed, `lastDrain, `log, `states, `actions
      ensures Valid() && old(states) <= states && old(actions) <= actions
      ensures PassOver(old(worker).used, Aborted(Internal))
    {
      ghost var before := Now();
      Commit(before, StorageFails, EndPass(before.core, Aborted(Internal)));
    }

    /** Awaits a storage call, which may fail. */
    method BeginCall() returns (r: Result<(), AppError>)
      requires Valid() && AtStorageCall(Now().core)
      modifies this, storage, provider
      ensures Valid() && old(states) <= states && old(actions) <= actions
      ensures r.Ok? ==> worker == old(worker)
      ensures r.Err? ==> PassOver(old(worker).used, Aborted(r.error))
    {
      Await();
      var broken: bool := *;
      if broken {
        Fail();
        return Err(Internal);
      }
      r := Ok(());
    }

    method GetHost(claim: ClaimRecord, nowMs: i64) returns (r: Result<HostRecord, AppError>)
      requires Valid() && IsAt(Fetch(claim)) && claim.hostId.Some? && nowMs == worker.pass.now
      modifies this, storage, provider
      ensures Valid() && old(states) <= states && old(actions) <= actions
      ensures r.Err? ==> PassOver(old(worker).used, Aborted(r.error))
      ensures r.Ok? ==>
                if !r.value.row.retry.IsDue(nowMs) || (old(worker).pass.live && r.value.row.phase == HostPhase.Failed)
                then ClaimOver(old(worker), Ok(Idle))
                else worker == old(worker).(point := Point.Observe(claim, r.value))
    {
      hide WorldRun, WorldInit, FailsAnyhow, Spec.Schema;
      var _ :- BeginCall();
      ghost var before := Now();
      r := storage.GetHost(claim.hostId.value);
      Commit(before, DoFetch, AfterFetch(before.core));
    }

    /** What follows a save that succeeded. */
    ghost predicate AfterSaved(was: Worker, claim: ClaimRecord, host: HostRecord, after: AfterSave)
      requires was.Busy?
      reads this
    {
      match after
      case ThenCreate => worker == was.(point := Point.Create(claim, host))
      case ThenDelete => worker == was.(point := Point.Delete(claim, host))
      case ThenPersist(result) => worker == was.(point := Persist(claim, result))
      case ThenProgress => ClaimOver(was, Ok(Progress))
    }

    method SaveHost(claim: ClaimRecord, host: HostRecord, ghost after: AfterSave) returns (r: Result<(), AppError>)
      requires Valid() && IsAt(Save(claim, host, after))
      modifies this, storage, provider
      ensures Valid() && old(states) <= states && old(actions) <= actions
      ensures r.Err? ==> PassOver(old(worker).used, Aborted(r.error))
      ensures r.Ok? ==> AfterSaved(old(worker), claim, host, after)
    {
      hide WorldRun, WorldInit, FailsAnyhow, Spec.Schema, Spec.SaveHost;
      var _ :- BeginCall();
      ghost var before := Now();
      r := storage.SaveHost(host);
      Commit(before, DoSave, AfterSaving(before.core));
    }

    /** `persist_claim_status`: a superseded status is dropped and the loop woken. */
    method PersistClaimStatus(claim: ClaimRecord, ghost result: PassResult) returns (r: Result<(), AppError>)
      requires Valid() && IsAt(Persist(claim, result))
      modifies this, storage, provider
      ensures Valid() && old(states) <= states && old(actions) <= actions
      ensures r.Err? ==> PassOver(old(worker).used, Aborted(r.error))
      ensures r.Ok? ==> ClaimOver(old(worker), Ok(result))
    {
      hide WorldRun, WorldInit, FailsAnyhow, Spec.Schema, Spec.SaveClaimStatus, Spec.Current;
      var _ :- BeginCall();
      ghost var before := Now();
      var saved := storage.SaveClaimStatus(claim);
      if !saved { permit := true; }
      Commit(before, DoPersist, AfterPersist(before.core));
      r := Ok(());
    }

    method Finalize(claim: ClaimRecord) returns (r: Result<(), AppError>)
      requires Valid() && IsAt(Point.Finalize(claim))
      modifies this, storage, provider
      ensures Valid() && old(states) <= states && old(actions) <= actions
      ensures r.Err? ==> PassOver(old(worker).used, Aborted(r.error))
      ensures r.Ok? ==> ClaimOver(old(worker), Ok(Progress))
    {
      hide WorldRun, WorldInit, FailsAnyhow, Spec.Schema, Spec.FinalizeClaim;
      var _ :- BeginCall();
      ghost var before := Now();
      r := storage.FinalizeClaim(claim.id);
      Commit(before, DoFinalize, AfterFinalize(before.core));
    }

    /* ---------- one claim ---------- */

    /** `reconcile_unbound_claim` */
    method ReconcileUnboundClaim(claim: ClaimRecord, nowMs: i64) returns (r: Result<PassResult, AppError>)
      requires Valid() && IsAt(Select(claim)) && nowMs == worker.pass.now
      modifies this, storage, provider
      ensures Valid() && old(states) <= states && old(actions) <= actions
      ensures ClaimOver(old(worker), r)
    {
      hide Valid, T.MarkUnsatisfiable, T.ScheduleClaimError, T.ShowsUnsatisfiable, T.Postponed, T.Parked, Shows, Pow2,
           SetCondition;
      var copy := new Working.ForClaim(claim);
      var selected := SelectPlan(claim, nowMs);
      match selected {
        case Ok(Some(plan)) =>
          r := EnsureHost(claim, plan);
        case Ok(None) =>
          var changed := copy.MarkUnsatisfiable(clock);
          if !changed { return Ok(Idle); }
          var _ :- PersistClaimStatus(copy.claim, Progress);
          r := Ok(Progress);
        case Err(error) =>
          copy.ScheduleClaimError(error, nowMs, clock);
          var _ :- PersistClaimStatus(copy.claim, Progress);
          r := Ok(Progress);
      }
    }

    method SelectPlan(claim: ClaimRecord, nowMs: i64) returns (selected: Selected)
      requires Valid() && IsAt(Select(claim)) && nowMs == worker.pass.now
      modifies this, storage, provider
      ensures Valid() && old(states) <= states && old(actions) <= actions
      ensures match selected
              case Ok(Some(plan)) => worker == old(worker).(point := Ensure(claim, plan))
              case Ok(None) =>
                var m := T.MarkUnsatisfiable(claim, clock);
                if m.changed then worker == old(worker).(point := Persist(m.claim, Progress))
                else ClaimOver(old(worker), Ok(Idle))
              case Err(e) =>
                worker == old(worker).(point := Persist(T.ScheduleClaimError(claim, e, nowMs, clock), Progress))
    {
      hide T.MarkUnsatisfiable, T.ScheduleClaimError, SetCondition;
      Await();
      ghost var before := Now();
      var broken: bool := *;
      selected := provider.SelectPlan(claim.row.spec);
      if broken { selected := Err(Transient(IO_ERROR)); }
      Commit(before, DoSelect(selected), AfterSelect(before.core, selected));
    }

    method EnsureHost(claim: ClaimRecord, plan: Plan) returns (r: Result<PassResult, AppError>)
      requires Valid() && IsAt(Ensure(claim, plan))
      modifies this, storage, provider
      ensures Valid() && old(states) <= states && old(actions) <= actions
      ensures ClaimOver(old(worker), r)
    {
      hide Valid;
      var _ :- BeginCall();
      r := AssignHost(claim, plan);
    }

    /** The transaction; a claim that changed meanwhile is dropped and the loop woken. */
    method AssignHost(claim: ClaimRecord, plan: Plan) returns (r: Result<PassResult, AppError>)
      requires Valid() && IsAt(Ensure(claim, plan))
      modifies this, storage
      ensures Valid() && old(states) <= states && old(actions) <= actions
      ensures ClaimOver(old(worker), r)
    {
      hide SetCondition, Spec.EnsureHost, Spec.Schema, WorldRun, WorldInit, Answers, FailsAnyhow;
      ghost var before := Now();
      SomeIdIsNew(storage.tables.issued);
      var newId: HostId :| newId !in storage.tables.issued;
      var ensured := storage.EnsureHost(claim.id, plan.id, plan.resources, newId, clock);
      if ensured.Ok? {
        r := Ok(Progress);
      } else if ensured.error == Conflict || ensured.error == NotFound {
        permit := true;
        r := Ok(Idle);
      } else {
        r := Err(ensured.error);
      }
      NoProviderCall(before, DoEnsure(newId));
      Commit(before, DoEnsure(newId), AfterEnsure(before.core, newId));
    }

    /** Both copies are written, the host first. */
    method Store(claim: ClaimRecord, host: HostRecord, result: PassResult) returns (r: Result<PassResult, AppError>)
      requires Valid() && IsAt(Save(claim, host, ThenPersist(result)))
      modifies this, storage, provider
      ensures Valid() && old(states) <= states && old(actions) <= actions
      ensures ClaimOver(old(worker), r) && (r.Ok? ==> r.value == result)
    {
      hide Valid;
      var _ :- SaveHost(claim, host, ThenPersist(result));
      var _ :- PersistClaimStatus(claim, result);
      r := Ok(result);
    }

    /** `reconcile_host` */
    method ReconcileHost(claim: ClaimRecord, host: HostRecord, nowMs: i64) returns (r: Result<PassResult, AppError>)
      requires Valid() && IsAt(Point.Observe(claim, host)) && worker.pass.live && nowMs == worker.pass.now
      modifies this, storage, provider
      ensures Valid() && old(states) <= states && old(actions) <= actions
      ensures ClaimOver(old(worker), r)
    {
      hide Valid, T.MarkHostFailed, T.ApplyObservation, T.MarkProviderAbsent, T.ScheduleHostError, T.ShowsObserved,
           T.BothShow, T.Postponed, Shows, SetCondition, PassOver;
      var copy := new Working(claim, host);
      var observed := Observe(claim, host, nowMs);
      match observed {
        case Ok(Present(resource)) =>
          if host.row.resourceId.Some? && host.row.resourceId.value != resource.id {
            copy.MarkHostFailed(ProviderOwnershipConflict,
                                OwnershipMismatch(host.row.resourceId.value, resource.id), clock);
            r := Store(copy.claim, copy.host, Progress);
            return;
          }
          var stable := T.IsStable(host.row, resource);
          copy.ApplyObservation(resource, clock);
          r := Store(copy.claim, copy.host, if stable then Idle else Progress);
        case Ok(Absent) =>
          if host.row.resourceId.Some? || host.row.phase != HostPhase.Pending {
            copy.MarkProviderAbsent(clock);
            r := Store(copy.claim, copy.host, Progress);
            return;
          }
          copy.host := copy.host.(row := copy.host.row.(phase := HostPhase.Provisioning));
          copy.host := copy.host.(row := copy.host.row.(retry := NO_RETRY));
          r := Provision(copy, nowMs);
        case Err(error) =>
          copy.ScheduleHostError(error, nowMs, clock);
          r := Store(copy.claim, copy.host, Progress);
      }
    }

    /** Commits the intent, then creates. */
    method Provision(copy: Working, nowMs: i64) returns (r: Result<PassResult, AppError>)
      requires Valid() && IsAt(Save(copy.claim, copy.host, ThenCreate)) && nowMs == worker.pass.now
      modifies this, storage, provider, copy
      ensures Valid() && old(states) <= states && old(actions) <= actions
      ensures ClaimOver(old(worker), r)
    {
      hide Valid, T.ApplyObservation, T.ScheduleHostError, T.MarkOutcomeUnknown, T.ShowsObserved, T.BothShow,
           T.Postponed, T.IsStable, Shows, Pow2, SetCondition, PassOver;
      var _ :- SaveHost(copy.claim, copy.host, ThenCreate);
      var creation := Create(copy.claim, copy.host, nowMs);
      match creation {
        case Ok(Created(resource)) => copy.ApplyObservation(resource, clock);
        case Ok(OutcomeUnknown) => copy.MarkOutcomeUnknown(CreateOutcomeUnknown, MayHaveCreated, nowMs, clock);
        case Err(error) => copy.ScheduleHostError(error, nowMs, clock);
      }
      r := Store(copy.claim, copy.host, Progress);
    }

    /** `reconcile_deleting_claim` */
    method ReconcileDeletingClaim(claim: ClaimRecord, nowMs: i64) returns (r: Result<PassResult, AppError>)
      requires Valid() && IsAt(if claim.hostId.None? then Point.Finalize(claim) else Fetch(claim))
      requires !worker.pass.live && nowMs == worker.pass.now
      modifies this, storage, provider
      ensures Valid() && old(states) <= states && old(actions) <= actions
      ensures ClaimOver(old(worker), r)
    {
      hide Valid, SetCondition;
      if claim.hostId.None? {
        var _ :- Finalize(claim);
        return Ok(Progress);
      }

      var host :- GetHost(claim, nowMs);
      if !host.row.retry.IsDue(nowMs) { return Ok(Idle); }

      r := ReconcileDeletingHost(claim, host, nowMs);
    }

    /** The host of a deleting claim is due. */
    method ReconcileDeletingHost(claim: ClaimRecord, host: HostRecord, nowMs: i64)
      returns (r: Result<PassResult, AppError>)
      requires Valid() && IsAt(Point.Observe(claim, host)) && !worker.pass.live && nowMs == worker.pass.now
      modifies this, storage, provider
      ensures Valid() && old(states) <= states && old(actions) <= actions
      ensures ClaimOver(old(worker), r)
    {
      hide Valid, T.MarkHostFailed, T.ScheduleRetryOnly, T.BothShow, T.Postponed, T.Parked, Shows, Pow2, SetCondition,
           PassOver;
      var copy := new Working(claim, host);
      var observed := Observe(claim, host, nowMs);
      match observed {
        case Ok(Absent) =>
          var _ :- Finalize(claim);
          r := Ok(Progress);
        case Ok(Present(resource)) =>
          if host.row.resourceId.Some? && host.row.resourceId.value != resource.id {
            copy.MarkHostFailed(ProviderOwnershipConflict,
                                OwnershipMismatch(host.row.resourceId.value, resource.id), clock);
            var retry := copy.host.row.retry.(nextReconcileAt := Some(I64_MAX));
            copy.host := copy.host.(row := copy.host.row.(retry := retry));
            r := Store(copy.claim, copy.host, Progress);
            return;
          }
          copy.host := copy.host.(row := copy.host.row.(phase := HostPhase.Deleting));
          copy.host := copy.host.(row := copy.host.row.(resourceId := Some(resource.id)));
          copy.host := copy.host.(row := copy.host.row.(observedAt := Some(clock)));
          copy.host := copy.host.(row := copy.host.row.(retry := NO_RETRY));
          r := Release(copy, nowMs);
        case Err(error) =>
          copy.ScheduleRetryOnly(error, nowMs);
          r := StoreHost(copy.claim, copy.host);
      }
    }

    /** Only the host copy is written, and the claim has made progress. */
    method StoreHost(claim: ClaimRecord, host: HostRecord) returns (r: Result<PassResult, AppError>)
      requires Valid() && IsAt(Save(claim, host, ThenProgress))
      modifies this, storage, provider
      ensures Valid() && old(states) <= states && old(actions) <= actions
      ensures ClaimOver(old(worker), r) && (r.Ok? ==> r.value == Progress)
    {
      hide Valid;
      var _ :- SaveHost(claim, host, ThenProgress);
      r := Ok(Progress);
    }

    /** Commits the intent, then deletes.  The outcome is not the proof of deletion. */
    method Release(copy: Working, nowMs: i64) returns (r: Result<PassResult, AppError>)
      requires Valid() && IsAt(Save(copy.claim, copy.host, ThenDelete)) && nowMs == worker.pass.now
      modifies this, storage, provider, copy
      ensures Valid() && old(states) <= states && old(actions) <= actions
      ensures ClaimOver(old(worker), r)
    {
      hide Valid, T.ScheduleRetryOnly, T.Postponed, T.Parked, Pow2, SetCondition;
      var _ :- SaveHost(copy.claim, copy.host, ThenDelete);
      var deletion := Delete(copy.claim, copy.host, nowMs);
      match deletion {
        case Ok(Deleted) =>
          copy.host := copy.host.(row := copy.host.row.(retry := NO_RETRY));
        case Ok(OutcomeUnknown) =>
          var retry := copy.host.row.retry.(nextReconcileAt := Some(SaturatingAdd(nowMs, 1_000)));
          retry := retry.(lastErrorKind := Some(DeleteOutcomeUnknown), lastErrorMessage := Some(MayHaveDeleted));
          copy.host := copy.host.(row := copy.host.row.(retry := retry));
        case Err(error) =>
          copy.ScheduleRetryOnly(error, nowMs);
      }
      r := StoreHost(copy.claim, copy.host);
    }

    /* ---------- one pass ---------- */

    method ListClaims() returns (r: Result<seq<ClaimRecord>, AppError>)
      requires Valid() && worker.Listing?
      modifies this, storage, provider
      ensures Valid() && old(states) <= states && old(actions) <= actions
      ensures r.Err? ==> worker == Parked && lastDrain == ListingFailed(old(worker).used)
      ensures r.Err? ==> log == old(log) + [PassEnded(Aborted(r.error))]
      ensures r.Ok? ==> worker == Busy(old(worker).used, Pass(old(worker).now, r.value, false, 0), Scan)
    {
      Await();
      ghost var before := Now();
      var broken: bool := *;
      if broken {
        ghost var parked := before.core.(worker := Parked, lastDrain := ListingFailed(worker.used));
        Commit(before, ListFails, Log(parked, PassEnded(Aborted(Internal))));
        return Err(Internal);
      }
      var records := storage.ListClaims();
      Commit(before, List(records), AfterList(before.core, records));
      r := Ok(records);
    }

    /** The loop header of `reconcile_once` moves on; nothing is awaited. */
    ghost method Dispatch()
      requires Valid() && IsAt(Scan)
      modifies `worker, `listed, `lastDrain, `log, `states, `actions
      ensures Valid() && old(states) <= states && old(actions) <= actions
      ensures worker == AfterScan(old(Now().core)).worker && lastDrain == AfterScan(old(Now().core)).lastDrain
      ensures log == AfterScan(old(Now().core)).log
    {
      ghost var before := Now();
      Commit(before, ScanNext, AfterScan(before.core));
    }

    /** How a pass of a drain that had used so many ended. */
    ghost predicate Ended(used: nat, r: Result<PassResult, AppError>)
      reads this
    {
      && log != [] && log[|log| - 1] == PassEnded(if r.Ok? then Finished(r.value) else Aborted(r.error))
      && match r
         case Ok(Progress) =>
           worker == if used + 1 >= MAX_STEPS_PER_WAKE then LimitReached else Listing(used + 1, NowUnixMs(clock))
         case Ok(Idle) => worker == Parked && lastDrain == BecameIdle
         case Err(_) => worker == Parked && (lastDrain == StoppedByError || lastDrain == ListingFailed(used))
    }

    /** The first loop of `reconcile_once`: deleting claims whose retry is due. */
    method ReconcileDeletions(claims: seq<ClaimRecord>, nowMs: i64) returns (r: Result<PassResult, AppError>)
      requires Valid() && worker.Busy? && worker == Busy(worker.used, Pass(nowMs, claims, false, 0), Scan)
      modifies this, storage, provider
      ensures Valid() && old(states) <= states && old(actions) <= actions
      ensures if r == Ok(Idle) then worker == Busy(old(worker).used, Pass(nowMs, claims, false, |claims|), Scan)
              else Ended(old(worker).used, r)
    {
      hide Valid, RetryState.IsDue;
      ghost var used := worker.used;
      for i := 0 to |claims|
        invariant Valid() && old(states) <= states && old(actions) <= actions
        invariant worker == Busy(used, Pass(nowMs, claims, false, i), Scan)
      {
        var claim := claims[i];
        Dispatch();
        if claim.row.deletionTimestamp.Some? && claim.row.retry.IsDue(nowMs) {
          var result :- ReconcileDeletingClaim(claim, nowMs);
          if result == Progress { return Ok(result); }
        }
      }
      r := Ok(Idle);
    }

    /** The second loop of `reconcile_once`: live claims. */
    method ReconcileLiveClaims(claims: seq<ClaimRecord>, nowMs: i64) returns (r: Result<PassResult, AppError>)
      requires Valid() && worker.Busy? && worker == Busy(worker.used, Pass(nowMs, claims, true, 0), Scan)
      modifies this, storage, provider
      ensures Valid() && old(states) <= states && old(actions) <= actions
      ensures if r == Ok(Idle) then worker == Busy(old(worker).used, Pass(nowMs, claims, true, |claims|), Scan)
              else Ended(old(worker).used, r)
    {
      hide Valid, RetryState.IsDue;
      ghost var used := worker.used;
      for i := 0 to |claims|
        invariant Valid() && old(states) <= states && old(actions) <= actions
        invariant worker == Busy(used, Pass(nowMs, claims, true, i), Scan)
      {
        var result :- ReconcileLiveClaim(claims[i], nowMs);
        if result == Progress { return Ok(result); }
      }
      r := Ok(Idle);
    }

    method ReconcileLiveClaim(claim: ClaimRecord, nowMs: i64) returns (r: Result<PassResult, AppError>)
      requires Valid() && IsAt(Scan) && worker.pass.live && nowMs == worker.pass.now
      requires worker.pass.i < |worker.pass.snapshot| && claim == worker.pass.snapshot[worker.pass.i]
      modifies this, storage, provider
      ensures Valid() && old(states) <= states && old(actions) <= actions
      ensures ClaimOver(old(worker), r)
    {
      hide Valid, RetryState.IsDue;
      Dispatch();
      if claim.row.deletionTimestamp.Some? { return Ok(Idle); }
      if claim.hostId.Some? {
        var host :- GetHost(claim, nowMs);
        if !host.row.retry.IsDue(nowMs) || host.row.phase == HostPhase.Failed { return Ok(Idle); }
        r := ReconcileHost(claim, host, nowMs);
        return;
      }
      if !claim.row.retry.IsDue(nowMs) { return Ok(Idle); }
      r := ReconcileUnboundClaim(claim, nowMs);
    }

    /** `reconcile_once` */
    method ReconcileOnce() returns (r: Result<PassResult, AppError>)
      requires Valid() && worker.Listing? && worker.now == NowUnixMs(clock)
      modifies this, storage, provider
      ensures Valid() && old(states) <= states && old(actions) <= actions
      ensures Ended(old(worker).used, r)
    {
      hide Valid;
      var nowMs := NowUnixMs(clock);
      var claims :- ListClaims();
      var result :- ReconcileDeletions(claims, nowMs);
      if result == Progress { return Ok(result); }
      Dispatch();
      result :- ReconcileLiveClaims(claims, nowMs);
      if result == Progress { return Ok(result); }
      Dispatch();
      r := Ok(Idle);
    }

    /* ---------- the loop ---------- */

    /** `select!`: a permit or the interval starts a drain. */
    method Wait()
      requires Valid() && worker == Parked
      modifies this, storage, provider
      ensures Valid() && old(states) <= states && old(actions) <= actions
      ensures worker == Listing(0, NowUnixMs(clock))
    {
      Await();
      ghost var before := Now();
      var notified: bool := *;
      if notified { permit := false; }
      Commit(before, Resume, before.core.(worker := Listing(0, NowUnixMs(clock)), permit := permit));
    }

    /** Up to 64 passes; it wakes itself when the last one still made progress. */
    method Drain()
      requires Valid() && worker == Listing(0, NowUnixMs(clock))
      modifies this, storage, provider
      ensures Valid() && old(states) <= states && old(actions) <= actions
      ensures worker == Parked && lastDrain != NoDrainYet
      ensures lastDrain == ReachedStepLimit ==> permit
    {
      hide Valid;
      var reachedStepLimit := true;
      for used := 0 to MAX_STEPS_PER_WAKE
        invariant Valid() && old(states) <= states && old(actions) <= actions
        invariant reachedStepLimit
        invariant worker == if used < MAX_STEPS_PER_WAKE then Listing(used, NowUnixMs(clock)) else LimitReached
      {
        var r := ReconcileOnce();
        match r {
          case Ok(Progress) =>
          case Ok(Idle) => reachedStepLimit := false; break;
          case Err(_) => reachedStepLimit := false; break;
        }
      }
      if reachedStepLimit { WakeSelf(); }
    }

    method WakeSelf()
      requires Valid() && worker == LimitReached
      modifies this
      ensures Valid() && old(states) <= states && old(actions) <= actions
      ensures worker == Parked && lastDrain == ReachedStepLimit && permit
    {
      ghost var before := Now();
      permit := true;
      Commit(before, Protocol.WakeSelf, before.core.(worker := Parked, permit := true, lastDrain := ReachedStepLimit));
    }

    method Start()
      requires Valid() && worker == Down
      modifies this
      ensures Valid() && old(states) <= states && old(actions) <= actions
      ensures worker == Parked
    {
      ghost var before := Now();
      permit := true;
      Commit(before, Restart, before.core.(worker := Parked, permit := true, lastDrain := NoDrainYet));
    }

    /** `run`, cancelled after so many drains.  A crash at any moment is a step of
        the machine from the state reached then. */
    method Run(drains: nat)
      requires Valid() && worker == Down
      modifies this, storage, provider
      ensures Valid() && old(states) <= states && old(actions) <= actions
      ensures worker == Parked
    {
      hide Valid;
      Start();
      for n := 0 to drains
        invariant Valid() && old(states) <= states && old(actions) <= actions
        invariant worker == Parked
      {
        Wait();
        Drain();
      }
    }

    /** The process dies between two calls: both databases stay as they are. */
    method Crash()
      requires Valid()
      modifies this
      ensures Valid() && old(states) <= states && old(actions) <= actions
      ensures worker == Down && !permit && unwoken == {} && log == old(log)
    {
      ghost var before := Now();
      permit, unwoken := false, {};
      Commit(before, Action.Crash, AfterCrash(before.core));
    }
  }
}
