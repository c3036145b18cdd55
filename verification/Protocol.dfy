/** The reconciliation protocol as a step machine.

    Every storage and provider call of the controller is one step, so an RPC,
    the clock or a crash can come between any two of them.  Provider responses
    are part of the step: this machine allows any response, which makes its
    invariants hold against an arbitrary provider. */
module Protocol {
  import opened Wrappers
  import opened Domain
  import opened Provider
  import opened Tables
  import T = Transitions

  const MAX_STEPS_PER_WAKE: nat := 64

  datatype PassResult = Progress | Idle

  /** How one `reconcile_once` ended. */
  datatype PassEnd = Finished(result: PassResult) | Aborted(error: AppError)

  /** How the last drain loop of `run` ended; a listing fails after so many passes. */
  datatype DrainEnd = NoDrainYet | BecameIdle | StoppedByError | ListingFailed(passes: nat) | ReachedStepLimit

  /** One `reconcile_once`: its clock reading, its snapshot, which of the two
      loops it is in and the index it has reached. */
  datatype Pass = Pass(now: i64, snapshot: seq<ClaimRecord>, live: bool, i: nat)

  datatype AfterSave =
    | ThenCreate
    | ThenDelete
    | ThenPersist(result: PassResult)
    | ThenProgress

  /** The next call of the worker, with the local copies it holds. */
  datatype Point =
    | Scan
    | Fetch(claim: ClaimRecord)
    | Observe(claim: ClaimRecord, host: HostRecord)
    | Save(claim: ClaimRecord, host: HostRecord, after: AfterSave)
    | Create(claim: ClaimRecord, host: HostRecord)
    | Delete(claim: ClaimRecord, host: HostRecord)
    | Persist(claim: ClaimRecord, result: PassResult)
    | Finalize(claim: ClaimRecord)
    | Select(claim: ClaimRecord)
    | Ensure(claim: ClaimRecord, plan: Plan)

  /** The single controller task.  `used` counts the passes of this drain; a pass
      reads the clock before it lists. */
  datatype Worker =
    | Down
    | Parked
    | LimitReached
    | Listing(used: nat, now: i64)
    | Busy(used: nat, pass: Pass, point: Point)

  /** What the worker did, in order; with the durable tables at that moment
      for the calls that must not come too early. */
  datatype Event =
    | PassStarted
    | PassEnded(end: PassEnd)
    | Observed(host: HostId, recorded: Option<ResourceId>, response: Observed)
    | Saved(host: HostId, row: HostRow)
    | CreateCalled(host: HostId, plan: PlanId, durable: Tables)
    | DeleteCalled(host: HostId, durable: Tables)
    | Finalized(id: HostClaimId, durable: Tables)

  datatype Core = Core(
    tables: Tables,
    clock: Timestamp,
    worker: Worker,
    permit: bool,              // the stored permit of tokio's Notify
    mutations: nat,            // RPC mutations committed so far, numbered from 0
    unwoken: set<nat>,         // committed, wake() not yet called
    listed: nat,               // mutations committed before the last list_claims
    lastDrain: DrainEnd,
    log: seq<Event>)

  datatype Action =
    | RpcCreate(id: HostClaimId, spec: HostResources)
    | RpcDelete(id: HostClaimId)
    | RpcWake(mutation: nat)
    | Tick(clock: Timestamp)
    | Crash
    | Restart
    | Resume
    | WakeSelf
    | List(snapshot: seq<ClaimRecord>)
    | ListFails
    | ScanNext
    | DoFetch
    | DoObserve(observed: Observed)
    | DoSave
    | DoCreate(creation: Creation, resourceId: ResourceId)
    | DoDelete(deletion: Deletion)
    | DoPersist
    | DoFinalize
    | DoSelect(selected: Selected)
    | DoEnsure(newHost: HostId)
    | StorageFails

  /* ---------- ends of a claim, a pass, a drain ---------- */

  function EndPass(c: Core, end: PassEnd): (r: Core)
    requires c.worker.Busy?
    ensures r.log == c.log + [PassEnded(end)] && r.tables == c.tables
  {
    var used := c.worker.used + 1;
    var c := c.(log := c.log + [PassEnded(end)]);
    match end
    case Finished(Progress) =>
      if used >= MAX_STEPS_PER_WAKE
      then c.(worker := LimitReached)
      else c.(worker := Listing(used, NowUnixMs(c.clock)))
    case Finished(Idle) => c.(worker := Parked, lastDrain := BecameIdle)
    case Aborted(_) => c.(worker := Parked, lastDrain := StoppedByError)
  }

  /** The current claim is done: progress ends the pass, otherwise the scan goes on. */
  function EndClaim(c: Core, result: PassResult): (r: Core)
    requires c.worker.Busy?
    ensures r.log == (if result == Progress then c.log + [PassEnded(Finished(Progress))] else c.log)
            && r.tables == c.tables
  {
    if result == Progress then EndPass(c, Finished(Progress))
    else c.(worker := c.worker.(pass := c.worker.pass.(i := c.worker.pass.i + 1), point := Scan))
  }

  function Goto(c: Core, point: Point): Core
    requires c.worker.Busy?
  {
    c.(worker := c.worker.(point := point))
  }

  function Log(c: Core, e: Event): Core {
    c.(log := c.log + [e])
  }

  /* ---------- the environment ---------- */

  ghost function AfterRpcCreate(c: Core, id: HostClaimId, spec: HostResources): Core {
    var reply := CreateClaim(c.tables, id, spec, c.clock);
    if reply.result.Ok?
    then c.(tables := reply.tables, mutations := c.mutations + 1, unwoken := c.unwoken + {c.mutations})
    else c.(tables := reply.tables)
  }

  ghost function AfterRpcDelete(c: Core, id: HostClaimId): Core {
    var reply := MarkClaimDeleting(c.tables, id, c.clock);
    if reply.result.Ok?
    then c.(tables := reply.tables, mutations := c.mutations + 1, unwoken := c.unwoken + {c.mutations})
    else c.(tables := reply.tables)
  }

  /** Both databases survive a crash; tasks, permits and local copies do not. */
  function AfterCrash(c: Core): Core {
    c.(worker := Down, permit := false, unwoken := {})
  }

  /* ---------- run and reconcile_once ---------- */

  /** `select!` fires: the permit is consumed if there is one, otherwise the
      interval ticked.  (A tick may also win over a stored permit.) */
  predicate ResumeFires(c: Core, c': Core) {
    && c.worker == Parked
    && var listing := Listing(0, NowUnixMs(c.clock));
       c' == c.(worker := listing, permit := false) || c' == c.(worker := listing)
  }

  function AfterList(c: Core, snapshot: seq<ClaimRecord>): Core
    requires c.worker.Listing?
  {
    Log(c.(worker := Busy(c.worker.used, Pass(c.worker.now, snapshot, false, 0), Scan), listed := c.mutations),
        PassStarted)
  }

  /** The loop headers of `reconcile_once`: filters and dispatch. */
  function AfterScan(c: Core): Core
    requires c.worker.Busy?
  {
    var pass := c.worker.pass;
    if pass.i >= |pass.snapshot| then
      if !pass.live then c.(worker := c.worker.(pass := pass.(live := true, i := 0), point := Scan))
      else EndPass(c, Finished(Idle))
    else
      var claim := pass.snapshot[pass.i];
      if !pass.live then
        if claim.row.deletionTimestamp.Some? && claim.row.retry.IsDue(pass.now) then
          if claim.hostId.None? then Goto(c, Finalize(claim)) else Goto(c, Fetch(claim))
        else EndClaim(c, Idle)
      else if claim.row.deletionTimestamp.Some? then EndClaim(c, Idle)
      else if claim.hostId.Some? then Goto(c, Fetch(claim))
      else if !claim.row.retry.IsDue(pass.now) then EndClaim(c, Idle)
      else Goto(c, Select(claim))
  }

  /** `get_host` and the checks on the fetched copy. */
  function AfterFetch(c: Core): Core
    requires c.worker.Busy? && c.worker.point.Fetch? && c.worker.point.claim.hostId.Some?
  {
    var claim := c.worker.point.claim;
    match GetHost(c.tables, claim.hostId.value)
    case Err(e) => EndPass(c, Aborted(e))
    case Ok(host) =>
      if !host.row.retry.IsDue(c.worker.pass.now) then EndClaim(c, Idle)
      else if c.worker.pass.live && host.row.phase == HostPhase.Failed then EndClaim(c, Idle)
      else Goto(c, Observe(claim, host))
  }

  /** The arms of `reconcile_host` on the observation. */
  function OnLiveObservation(claim: ClaimRecord, host: HostRecord, obs: Observed, nowMs: i64, now: Timestamp): Point {
    match obs
    case Ok(Present(r)) =>
      if host.row.resourceId.Some? && host.row.resourceId.value != r.id then
        var b := T.MarkHostFailed(claim, host, ProviderOwnershipConflict,
                                  OwnershipMismatch(host.row.resourceId.value, r.id), now);
        Save(b.claim, b.host, ThenPersist(Progress))
      else
        var b := T.ApplyObservation(claim, host, r, now);
        Save(b.claim, b.host, ThenPersist(if T.IsStable(host.row, r) then Idle else Progress))
    case Ok(Absent) =>
      if host.row.resourceId.Some? || host.row.phase != HostPhase.Pending then
        var b := T.MarkProviderAbsent(claim, host, now);
        Save(b.claim, b.host, ThenPersist(Progress))
      else
        Save(claim, host.(row := host.row.(phase := HostPhase.Provisioning, retry := NO_RETRY)), ThenCreate)
    case Err(e) =>
      var b := T.ScheduleHostError(claim, host, e, nowMs, now);
      Save(b.claim, b.host, ThenPersist(Progress))
  }

  /** The arms of `reconcile_deleting_claim` on the observation. */
  function OnDeletingObservation(claim: ClaimRecord, host: HostRecord, obs: Observed, nowMs: i64,
                                 now: Timestamp): Point {
    match obs
    case Ok(Absent) => Finalize(claim)
    case Ok(Present(r)) =>
      if host.row.resourceId.Some? && host.row.resourceId.value != r.id then
        var b := T.MarkHostFailed(claim, host, ProviderOwnershipConflict,
                                  OwnershipMismatch(host.row.resourceId.value, r.id), now);
        var host := b.host.(row := b.host.row.(retry := b.host.row.retry.(nextReconcileAt := Some(I64_MAX))));
        Save(b.claim, host, ThenPersist(Progress))
      else
        var row := host.row.(phase := HostPhase.Deleting, resourceId := Some(r.id), observedAt := Some(now),
                             retry := NO_RETRY);
        Save(claim, host.(row := row), ThenDelete)
    case Err(e) => Save(claim, T.ScheduleRetryOnly(host, e, nowMs), ThenProgress)
  }

  function AfterObserve(c: Core, obs: Observed): Core
    requires c.worker.Busy? && c.worker.point.Observe?
  {
    var claim, host, nowMs := c.worker.point.claim, c.worker.point.host, c.worker.pass.now;
    var next := if c.worker.pass.live
                then OnLiveObservation(claim, host, obs, nowMs, c.clock)
                else OnDeletingObservation(claim, host, obs, nowMs, c.clock);
    Log(Goto(c, next), Observed(host.id, host.row.resourceId, obs))
  }

  ghost function AfterSaving(c: Core): Core
    requires c.worker.Busy? && c.worker.point.Save?
  {
    var claim, host, after := c.worker.point.claim, c.worker.point.host, c.worker.point.after;
    var reply := SaveHost(c.tables, host);
    var c := c.(tables := reply.tables);
    match reply.result
    case Err(e) => EndPass(c, Aborted(e))
    case Ok(_) =>
      var c := Log(c, Saved(host.id, c.tables.hosts[host.id]));
      match after
      case ThenCreate => Goto(c, Create(claim, host))
      case ThenDelete => Goto(c, Delete(claim, host))
      case ThenPersist(result) => Goto(c, Persist(claim, result))
      case ThenProgress => EndClaim(c, Progress)
  }

  /** The arms of `reconcile_host` on the outcome of create. */
  function OnCreation(claim: ClaimRecord, host: HostRecord, creation: Creation, nowMs: i64, now: Timestamp): T.Both {
    match creation
    case Ok(Created(r)) => T.ApplyObservation(claim, host, r, now)
    case Ok(OutcomeUnknown) => T.MarkOutcomeUnknown(claim, host, CreateOutcomeUnknown, MayHaveCreated, nowMs, now)
    case Err(e) => T.ScheduleHostError(claim, host, e, nowMs, now)
  }

  function AfterCreate(c: Core, creation: Creation): Core
    requires c.worker.Busy? && c.worker.point.Create?
  {
    var host := c.worker.point.host;
    var b := OnCreation(c.worker.point.claim, host, creation, c.worker.pass.now, c.clock);
    Log(Goto(c, Save(b.claim, b.host, ThenPersist(Progress))),
        CreateCalled(host.id, host.row.planId, c.tables))
  }

  /** The arms of `reconcile_deleting_claim` on the outcome of delete. */
  function OnDeletion(host: HostRecord, deletion: Deletion, nowMs: i64): HostRecord {
    match deletion
    case Ok(Deleted) => host.(row := host.row.(retry := NO_RETRY))
    case Ok(OutcomeUnknown) =>
      var retry := host.row.retry.(nextReconcileAt := Some(SaturatingAdd(nowMs, 1_000)),
                                   lastErrorKind := Some(DeleteOutcomeUnknown),
                                       lastErrorMessage := Some(MayHaveDeleted));
      host.(row := host.row.(retry := retry))
    case Err(e) => T.ScheduleRetryOnly(host, e, nowMs)
  }

  function AfterDelete(c: Core, deletion: Deletion): Core
    requires c.worker.Busy? && c.worker.point.Delete?
  {
    var claim, host := c.worker.point.claim, c.worker.point.host;
    Log(Goto(c, Save(claim, OnDeletion(host, deletion, c.worker.pass.now), ThenProgress)),
        DeleteCalled(host.id, c.tables))
  }

  /** `persist_claim_status`: a superseded status is dropped and the loop woken. */
  function AfterPersist(c: Core): Core
    requires c.worker.Busy? && c.worker.point.Persist?
  {
    var claim, result := c.worker.point.claim, c.worker.point.result;
    EndClaim(c.(tables := SaveClaimStatus(c.tables, claim), permit := c.permit || !Current(c.tables, claim)), result)
  }

  function AfterFinalize(c: Core): Core
    requires c.worker.Busy? && c.worker.point.Finalize?
  {
    var claim := c.worker.point.claim;
    var reply := FinalizeClaim(c.tables, claim.id);
    match reply.result
    case Err(e) => EndPass(c, Aborted(e))
    case Ok(_) =>
      EndClaim(Log(c.(tables := reply.tables), Finalized(claim.id, c.tables)), Progress)
  }

  function AfterSelect(c: Core, selected: Selected): Core
    requires c.worker.Busy? && c.worker.point.Select?
  {
    var claim := c.worker.point.claim;
    match selected
    case Ok(Some(plan)) => Goto(c, Ensure(claim, plan))
    case Ok(None) =>
      var m := T.MarkUnsatisfiable(claim, c.clock);
      if m.changed then Goto(c, Persist(m.claim, Progress)) else EndClaim(c, Idle)
    case Err(e) => Goto(c, Persist(T.ScheduleClaimError(claim, e, c.worker.pass.now, c.clock), Progress))
  }

  /** `ensure_host`: a claim that changed meanwhile is dropped and the loop woken. */
  ghost function AfterEnsure(c: Core, newHost: HostId): Core
    requires c.worker.Busy? && c.worker.point.Ensure?
  {
    var claim, plan := c.worker.point.claim, c.worker.point.plan;
    var reply := EnsureHost(c.tables, claim.id, plan.id, plan.resources, newHost, c.clock);
    var c := c.(tables := reply.tables);
    match reply.result
    case Ok(_) => EndClaim(c, Progress)
    case Err(Conflict) => EndClaim(c.(permit := true), Idle)
    case Err(NotFound) => EndClaim(c.(permit := true), Idle)
    case Err(e) => EndPass(c, Aborted(e))
  }

  /* ---------- the step relation ---------- */

  predicate At(c: Core, a: Action) {
    c.worker.Busy? &&
    match a
    case ScanNext => c.worker.point.Scan?
    case DoFetch => c.worker.point.Fetch? && c.worker.point.claim.hostId.Some?
    case DoObserve(_) => c.worker.point.Observe?
    case DoSave => c.worker.point.Save?
    case DoCreate(_, _) => c.worker.point.Create?
    case DoDelete(_) => c.worker.point.Delete?
    case DoPersist => c.worker.point.Persist?
    case DoFinalize => c.worker.point.Finalize?
    case DoSelect(_) => c.worker.point.Select?
    case DoEnsure(newHost) => c.worker.point.Ensure? && newHost !in c.tables.issued
    case _ => false
  }

  predicate AtStorageCall(c: Core) {
    && c.worker.Busy?
    && (c.worker.point.Fetch? || c.worker.point.Save? || c.worker.point.Persist? || c.worker.point.Finalize?
        || c.worker.point.Ensure?)
  }

  ghost predicate Step(c: Core, a: Action, c': Core) {
    match a
    case RpcCreate(id, spec) => c.worker != Down && c' == AfterRpcCreate(c, id, spec)
    case RpcDelete(id) => c.worker != Down && c' == AfterRpcDelete(c, id)
    case RpcWake(m) => m in c.unwoken && c' == c.(unwoken := c.unwoken - {m}, permit := true)
    case Tick(t) => c.clock <= t && c' == c.(clock := t)
    case Crash => c' == AfterCrash(c)
    case Restart => c.worker == Down && c' == c.(worker := Parked, permit := true, lastDrain := NoDrainYet)
    case Resume => ResumeFires(c, c')
    case WakeSelf =>
      c.worker == LimitReached && c' == c.(worker := Parked, lastDrain := ReachedStepLimit, permit := true)
    case List(s) => c.worker.Listing? && IsListing(c.tables, s) && c' == AfterList(c, s)
    case ListFails =>
      && c.worker.Listing?
      && c' == Log(c.(worker := Parked, lastDrain := ListingFailed(c.worker.used)), PassEnded(Aborted(Internal)))
    case ScanNext => At(c, a) && c' == AfterScan(c)
    case DoFetch => At(c, a) && c' == AfterFetch(c)
    case DoObserve(obs) => At(c, a) && c' == AfterObserve(c, obs)
    case DoSave => At(c, a) && c' == AfterSaving(c)
    case DoCreate(creation, _) => At(c, a) && c' == AfterCreate(c, creation)
    case DoDelete(deletion) => At(c, a) && c' == AfterDelete(c, deletion)
    case DoPersist => At(c, a) && c' == AfterPersist(c)
    case DoFinalize => At(c, a) && c' == AfterFinalize(c)
    case DoSelect(selected) => At(c, a) && c' == AfterSelect(c, selected)
    case DoEnsure(newHost) => At(c, a) && c' == AfterEnsure(c, newHost)
    case StorageFails => AtStorageCall(c) && c' == EndPass(c, Aborted(Internal))
  }

  /** An empty database and a process that has not started. */
  predicate Init(c: Core) {
    && c.tables == EMPTY && c.worker == Down && !c.permit
    && c.mutations == 0 && c.unwoken == {} && c.listed == 0
    && c.lastDrain == NoDrainYet && c.log == []
  }

  ghost predicate Run(cs: seq<Core>, actions: seq<Action>) {
    && |cs| == |actions| + 1
    && forall k :: 0 <= k < |actions| ==> Step(cs[k], actions[k], cs[k + 1])
  }
}
