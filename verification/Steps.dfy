/** What a step of the worker inside a pass does to everything but the tables. */
module Steps {
  import opened Wrappers
  import opened Domain
  import opened Provider
  import opened Tables
  import opened Protocol
  import T = Transitions

  predicate IsEnvironment(a: Action) {
    a.RpcCreate? || a.RpcDelete? || a.RpcWake? || a.Tick? || a.Crash? || a.Restart? || a.Resume? || a.WakeSelf?
  }

  function Weight(point: Point): nat {
    match point
    case Scan => 8
    case Fetch(_) => 7
    case Select(_) => 7
    case Observe(_, _) => 6
    case Save(_, _, after) => if after.ThenCreate? || after.ThenDelete? then 5 else 3
    case Create(_, _) => 4
    case Delete(_, _) => 4
    case Persist(_, _) => 2
    case Finalize(_) => 2
    case Ensure(_, _) => 2
  }

  /** The pass goes on to a lighter point of the same claim, to the next claim, or
      from the deleting claims to the live ones. */
  predicate MovesOn(p: Pass, point: Point, q: Pass, next: Point) {
    || (q == p && Weight(next) < Weight(point))
    || (next.Scan? && q == p.(i := p.i + 1) && (point.Scan? ==> p.i < |p.snapshot|))
    || (next.Scan? && point.Scan? && !p.live && p.i >= |p.snapshot| && q == p.(live := true, i := 0))
  }

  /** At most two entries are appended; the end of the pass is logged last, and
      exactly when the worker leaves it. */
  predicate Reports(earlier: seq<Event>, later: seq<Event>, busy: bool) {
    && earlier <= later && |later| <= |earlier| + 2
    && (!busy ==> |earlier| < |later|)
    && forall i :: |earlier| <= i < |later| ==> (later[i].PassEnded? <==> !busy && i == |later| - 1)
  }

  predicate WorkStep(c: Core, c': Core)
    requires c.worker.Busy?
  {
    && c'.clock == c.clock && c'.mutations == c.mutations && c'.unwoken == c.unwoken && c'.listed == c.listed
    && (c.permit ==> c'.permit)
    && Reports(c.log, c'.log, c'.worker.Busy?)
    && match c'.worker
       case Busy(used, q, next) => used == c.worker.used && MovesOn(c.worker.pass, c.worker.point, q, next)
       case Listing(used, now) => used == c.worker.used + 1 && now == NowUnixMs(c.clock)
       case LimitReached => c.worker.used + 1 >= MAX_STEPS_PER_WAKE
       case Parked => c'.lastDrain in {BecameIdle, StoppedByError}
       case Down => false
  }

  lemma EndPassIsWorkStep(c: Core, d: Core, end: PassEnd)
    requires c.worker.Busy? && d.worker == c.worker && Logged(c, d)
    ensures WorkStep(c, EndPass(d, end))
  {
    hide MovesOn, Weight;
  }

  /** The same but for the tables, the permit and at most one entry. */
  predicate Logged(c: Core, d: Core) {
    && d.clock == c.clock && d.mutations == c.mutations && d.unwoken == c.unwoken && d.listed == c.listed
    && (c.permit ==> d.permit)
    && c.log <= d.log && |d.log| <= |c.log| + 1
    && forall i :: |c.log| <= i < |d.log| ==> !d.log[i].PassEnded?
  }

  lemma EndClaimIsWorkStep(c: Core, d: Core, result: PassResult)
    requires c.worker.Busy? && d.worker == c.worker && Logged(c, d)
    requires c.worker.point.Scan? ==> c.worker.pass.i < |c.worker.pass.snapshot|
    ensures WorkStep(c, EndClaim(d, result))
  {
    hide Weight;
    if result == Progress { EndPassIsWorkStep(c, d, Finished(Progress)); }
  }

  lemma GotoIsWorkStep(c: Core, d: Core, next: Point)
    requires c.worker.Busy? && d.worker == c.worker && Logged(c, d) && Weight(next) < Weight(c.worker.point)
    ensures WorkStep(c, Goto(d, next))
  {
    hide Weight;
  }

  lemma ObservedWeight(claim: ClaimRecord, host: HostRecord, obs: Observed, nowMs: i64, now: Timestamp)
    ensures Weight(OnLiveObservation(claim, host, obs, nowMs, now)) < 6
    ensures Weight(OnDeletingObservation(claim, host, obs, nowMs, now)) < 6
  {
    hide SetCondition;
  }

  lemma ScanIsWorkStep(c: Core)
    requires At(c, ScanNext)
    ensures WorkStep(c, AfterScan(c))
  {
    hide WorkStep, EndPass, EndClaim, Goto;
    var p := c.worker.pass;
    if p.i < |p.snapshot| {
      var claim := p.snapshot[p.i];
      EndClaimIsWorkStep(c, c, Idle);
      GotoIsWorkStep(c, c, Finalize(claim));
      GotoIsWorkStep(c, c, Fetch(claim));
      GotoIsWorkStep(c, c, Select(claim));
    } else {
      EndPassIsWorkStep(c, c, Finished(Idle));
      if !p.live { LoopIsWorkStep(c); }
    }
  }

  lemma LoopIsWorkStep(c: Core)
    requires At(c, ScanNext) && !c.worker.pass.live && c.worker.pass.i >= |c.worker.pass.snapshot|
    ensures WorkStep(c, c.(worker := c.worker.(pass := c.worker.pass.(live := true, i := 0), point := Scan)))
  {}

  lemma FetchIsWorkStep(c: Core)
    requires At(c, DoFetch)
    ensures WorkStep(c, AfterFetch(c))
  {
    hide WorkStep, EndPass, EndClaim, Goto;
    match GetHost(c.tables, c.worker.point.claim.hostId.value)
    case Err(e) => EndPassIsWorkStep(c, c, Aborted(e));
    case Ok(host) =>
      EndClaimIsWorkStep(c, c, Idle);
      GotoIsWorkStep(c, c, Observe(c.worker.point.claim, host));
  }

  lemma ObserveIsWorkStep(c: Core, obs: Observed)
    requires At(c, DoObserve(obs))
    ensures WorkStep(c, AfterObserve(c, obs))
  {
    hide WorkStep, OnLiveObservation, OnDeletingObservation;
    var claim, host := c.worker.point.claim, c.worker.point.host;
    ObservedWeight(claim, host, obs, c.worker.pass.now, c.clock);
    var d := Log(c, Event.Observed(host.id, host.row.resourceId, obs));
    var next := AfterObserve(c, obs).worker.point;
    GotoIsWorkStep(c, d, next);
    assert AfterObserve(c, obs) == Goto(d, next);
  }

  lemma SaveIsWorkStep(c: Core)
    requires At(c, DoSave)
    ensures WorkStep(c, AfterSaving(c))
  {
    hide WorkStep, EndPass, EndClaim, Goto, SaveHost;
    var claim, host := c.worker.point.claim, c.worker.point.host;
    var reply := SaveHost(c.tables, host);
    var d := c.(tables := reply.tables);
    match reply.result
    case Err(e) => EndPassIsWorkStep(c, d, Aborted(e));
    case Ok(_) =>
      SavedRowExists(c.tables, host);
      var d := Log(d, Saved(host.id, d.tables.hosts[host.id]));
      match c.worker.point.after
      case ThenCreate => GotoIsWorkStep(c, d, Create(claim, host));
      case ThenDelete => GotoIsWorkStep(c, d, Delete(claim, host));
      case ThenPersist(result) => GotoIsWorkStep(c, d, Persist(claim, result));
      case ThenProgress => EndClaimIsWorkStep(c, d, Progress);
  }

  lemma SavedRowExists(t: Tables, host: HostRecord)
    requires SaveHost(t, host).result.Ok?
    ensures host.id in SaveHost(t, host).tables.hosts
  {}

  lemma CallIsWorkStep(c: Core, a: Action, c': Core)
    requires Step(c, a, c') && (a.DoCreate? || a.DoDelete?)
    ensures c.worker.Busy? && WorkStep(c, c')
  {
    hide OnCreation, OnDeletion;
  }

  lemma PersistIsWorkStep(c: Core)
    requires At(c, DoPersist)
    ensures WorkStep(c, AfterPersist(c))
  {
    hide WorkStep, EndClaim, SaveClaimStatus;
    var claim := c.worker.point.claim;
    var d := c.(tables := SaveClaimStatus(c.tables, claim), permit := c.permit || !Current(c.tables, claim));
    EndClaimIsWorkStep(c, d, c.worker.point.result);
  }

  lemma FinalizeIsWorkStep(c: Core)
    requires At(c, DoFinalize)
    ensures WorkStep(c, AfterFinalize(c))
  {
    hide WorkStep, EndPass, EndClaim, FinalizeClaim;
    var claim := c.worker.point.claim;
    var reply := FinalizeClaim(c.tables, claim.id);
    match reply.result
    case Err(e) => EndPassIsWorkStep(c, c, Aborted(e));
    case Ok(_) => EndClaimIsWorkStep(c, Log(c.(tables := reply.tables), Finalized(claim.id, c.tables)), Progress);
  }

  lemma SelectIsWorkStep(c: Core, selected: Selected)
    requires At(c, DoSelect(selected))
    ensures WorkStep(c, AfterSelect(c, selected))
  {
    hide WorkStep, EndClaim, Goto, T.MarkUnsatisfiable, T.ScheduleClaimError;
    var claim := c.worker.point.claim;
    match selected
    case Ok(Some(plan)) => GotoIsWorkStep(c, c, Ensure(claim, plan));
    case Ok(None) =>
      EndClaimIsWorkStep(c, c, Idle);
      GotoIsWorkStep(c, c, Persist(T.MarkUnsatisfiable(claim, c.clock).claim, Progress));
    case Err(e) => GotoIsWorkStep(c, c, Persist(T.ScheduleClaimError(claim, e, c.worker.pass.now, c.clock), Progress));
  }

  lemma EnsureIsWorkStep(c: Core, newHost: HostId)
    requires At(c, DoEnsure(newHost))
    ensures WorkStep(c, AfterEnsure(c, newHost))
  {
    hide WorkStep, EndPass, EndClaim, EnsureHost;
    var claim, plan := c.worker.point.claim, c.worker.point.plan;
    var reply := EnsureHost(c.tables, claim.id, plan.id, plan.resources, newHost, c.clock);
    var d := c.(tables := reply.tables);
    match reply.result
    case Ok(_) => EndClaimIsWorkStep(c, d, Progress);
    case Err(e) =>
      EndClaimIsWorkStep(c, d.(permit := true), Idle);
      EndPassIsWorkStep(c, d, Aborted(e));
  }

  lemma WorkIsWorkStep(c: Core, a: Action, c': Core)
    requires Step(c, a, c') && c.worker.Busy? && !IsEnvironment(a)
    ensures WorkStep(c, c')
  {
    hide WorkStep, EndPass, AfterSaving, AfterObserve, AfterEnsure, AfterScan, AfterFetch, AfterPersist, AfterSelect,
         AfterFinalize, AfterCreate, AfterDelete, AfterList;
    match a
    case ScanNext => ScanIsWorkStep(c);
    case DoFetch => FetchIsWorkStep(c);
    case DoObserve(obs) => ObserveIsWorkStep(c, obs);
    case DoSave => SaveIsWorkStep(c);
    case DoCreate(_, _) => CallIsWorkStep(c, a, c');
    case DoDelete(_) => CallIsWorkStep(c, a, c');
    case DoPersist => PersistIsWorkStep(c);
    case DoFinalize => FinalizeIsWorkStep(c);
    case DoSelect(selected) => SelectIsWorkStep(c, selected);
    case DoEnsure(h) => EnsureIsWorkStep(c, h);
    case StorageFails => EndPassIsWorkStep(c, c, Aborted(Internal));
    case _ =>
  }
}
