/** What holds in every reachable state, and of everything the controller ever
    did, against an arbitrary provider. */
module Guarantees {
  import opened Wrappers
  import opened Domain
  import opened Provider
  import opened Tables
  import opened Protocol
  import opened Invariants
  import opened Steps
  import T = Transitions

  /* ---------- the history of calls ---------- */

  /** A lookup of `h` that returned `r`, agreeing with the recorded ID if any. */
  predicate FoundOwn(e: Event, h: HostId, r: ResourceId) {
    && e.Observed? && e.host == h
    && e.response.Ok? && e.response.value.Present? && e.response.value.resource.id == r
    && (e.recorded.Some? ==> e.recorded.value == r)
  }

  predicate FoundAbsent(e: Event, h: HostId) {
    e.Observed? && e.host == h && e.response == Ok(Absent)
  }

  /** The durable host row, when the table has it. */
  predicate RowIs(t: Tables, h: HostId, phase: HostPhase, r: Option<ResourceId>) {
    h in t.hosts && t.hosts[h].phase == phase && t.hosts[h].resourceId == r
  }

  /** Delete: the claim is durably released, the row says Deleting with an ID,
      and the two preceding entries are the lookup of exactly that ID and the
      commit of exactly that row. */
  predicate DeleteGuarded(log: seq<Event>, i: nat)
    requires i < |log| && log[i].DeleteCalled?
  {
    var h, t := log[i].host, log[i].durable;
    && i >= 2
    && h in t.hosts && t.hosts[h].claimId in t.claims && Released(t.claims[t.hosts[h].claimId])
    && t.hosts[h].phase == HostPhase.Deleting && t.hosts[h].resourceId.Some?
    && log[i - 1] == Saved(h, t.hosts[h])
    && FoundOwn(log[i - 2], h, t.hosts[h].resourceId.value)
  }

  /** Create: the intent is committed with the plan, after a lookup found nothing. */
  predicate CreateGuarded(log: seq<Event>, i: nat)
    requires i < |log| && log[i].CreateCalled?
  {
    var h, t := log[i].host, log[i].durable;
    && i >= 2
    && RowIs(t, h, HostPhase.Provisioning, None) && t.hosts[h].planId == log[i].plan
    && log[i - 1] == Saved(h, t.hosts[h])
    && FoundAbsent(log[i - 2], h)
  }

  /** Finalize: the claim is durably released and, when it is bound, the entry
      just before is a lookup that proved its resource absent. */
  predicate FinalizeGuarded(log: seq<Event>, i: nat)
    requires i < |log| && log[i].Finalized?
  {
    var id, t := log[i].id, log[i].durable;
    && id in t.claims && Released(t.claims[id])
    && forall h :: h in t.hosts && Owns(t, h, id) ==> i >= 1 && FoundAbsent(log[i - 1], h)
  }

  predicate Guarded(log: seq<Event>, i: nat)
    requires i < |log|
  {
    match log[i]
    case DeleteCalled(_, _) => DeleteGuarded(log, i)
    case CreateCalled(_, _, _) => CreateGuarded(log, i)
    case Finalized(_, _) => FinalizeGuarded(log, i)
    case PassEnded(Aborted(e)) => e != NotFound
    case _ => true
  }

  predicate AllGuarded(log: seq<Event>) {
    forall i :: 0 <= i < |log| ==> Guarded(log, i)
  }

  /** What the end of the log says about the call the worker is about to make. */
  predicate TailOk(c: Core) {
    c.worker.Busy? ==>
      var n := |c.log|;
      match c.worker.point
      case Save(_, host, ThenCreate) => n >= 1 && FoundAbsent(c.log[n - 1], host.id)
      case Save(_, host, ThenDelete) =>
        n >= 1 && host.row.resourceId.Some? && FoundOwn(c.log[n - 1], host.id, host.row.resourceId.value)
      case Create(_, host) => n >= 2 && c.log[n - 1] == Saved(host.id, host.row) && FoundAbsent(c.log[n - 2], host.id)
      case Delete(_, host) =>
        && n >= 2 && c.log[n - 1] == Saved(host.id, host.row)
        && host.row.resourceId.Some? && FoundOwn(c.log[n - 2], host.id, host.row.resourceId.value)
      case Finalize(claim) => claim.hostId.Some? ==> n >= 1 && FoundAbsent(c.log[n - 1], claim.hostId.value)
      case _ => true
  }

  lemma AppendGuarded(log: seq<Event>, e: Event)
    requires AllGuarded(log) && Guarded(log + [e], |log|)
    ensures AllGuarded(log + [e])
  {
    forall i | 0 <= i < |log| ensures Guarded(log + [e], i) {
      assert Guarded(log, i);
    }
  }

  lemma EndPassGuarded(c: Core, end: PassEnd)
    requires c.worker.Busy? && AllGuarded(c.log) && end != Aborted(NotFound)
    ensures AllGuarded(EndPass(c, end).log) && TailOk(EndPass(c, end))
  {
    AppendGuarded(c.log, PassEnded(end));
  }

  lemma EndClaimGuarded(c: Core, result: PassResult)
    requires c.worker.Busy? && AllGuarded(c.log)
    ensures AllGuarded(EndClaim(c, result).log) && TailOk(EndClaim(c, result))
  {
    if result == Progress { EndPassGuarded(c, Finished(Progress)); }
  }

  lemma ObserveGuarded(c: Core, obs: Observed)
    requires Safe(c) && AllGuarded(c.log) && At(c, DoObserve(obs))
    ensures AllGuarded(AfterObserve(c, obs).log) && TailOk(AfterObserve(c, obs))
  {
    var host := c.worker.point.host;
    AppendGuarded(c.log, Event.Observed(host.id, host.row.resourceId, obs));
  }

  lemma SaveGuarded(c: Core)
    requires Safe(c) && AllGuarded(c.log) && TailOk(c) && At(c, DoSave)
    ensures AllGuarded(AfterSaving(c).log) && TailOk(AfterSaving(c))
  {
    hide SetCondition, RecordedElsewhere, Schema;
    SaveKeepsSafe(c);
    var host := c.worker.point.host;
    var reply := SaveHost(c.tables, host);
    var c' := c.(tables := reply.tables);
    match reply.result
    case Err(e) => EndPassGuarded(c', Aborted(e));
    case Ok(_) =>
      assert reply.tables.hosts[host.id] == host.row;
      SavedGuarded(c', host);
  }

  /** After the commit of a row the tail says so. */
  lemma SavedGuarded(c: Core, host: HostRecord)
    requires AllGuarded(c.log) && TailOk(c) && c.worker.Busy? && c.worker.point.Save? && c.worker.point.host == host
    ensures var c' := Log(c, Saved(host.id, host.row));
            var claim := c.worker.point.claim;
            match c.worker.point.after
            case ThenCreate => AllGuarded(c'.log) && TailOk(Goto(c', Create(claim, host)))
            case ThenDelete => AllGuarded(c'.log) && TailOk(Goto(c', Delete(claim, host)))
            case ThenPersist(result) => AllGuarded(c'.log) && TailOk(Goto(c', Persist(claim, result)))
            case ThenProgress => AllGuarded(EndClaim(c', Progress).log) && TailOk(EndClaim(c', Progress))
  {
    AppendGuarded(c.log, Saved(host.id, host.row));
    EndClaimGuarded(Log(c, Saved(host.id, host.row)), Progress);
  }

  lemma CreateIsGuarded(c: Core, creation: Creation)
    requires Safe(c) && AllGuarded(c.log) && TailOk(c) && c.worker.Busy? && c.worker.point.Create?
    ensures AllGuarded(AfterCreate(c, creation).log) && TailOk(AfterCreate(c, creation))
  {
    var host := c.worker.point.host;
    var e := CreateCalled(host.id, host.row.planId, c.tables);
    assert CreateGuarded(c.log + [e], |c.log|);
    AppendGuarded(c.log, e);
  }

  lemma DeleteIsGuarded(c: Core, deletion: Deletion)
    requires Safe(c) && AllGuarded(c.log) && TailOk(c) && c.worker.Busy? && c.worker.point.Delete?
    ensures AllGuarded(AfterDelete(c, deletion).log) && TailOk(AfterDelete(c, deletion))
  {
    var p, host := c.worker.pass, c.worker.point.host;
    assert Agrees(c.tables, p.snapshot[p.i]);
    var e := DeleteCalled(host.id, c.tables);
    assert DeleteGuarded(c.log + [e], |c.log|);
    AppendGuarded(c.log, e);
  }

  lemma FinalizeIsGuarded(c: Core)
    requires Safe(c) && AllGuarded(c.log) && TailOk(c) && At(c, DoFinalize)
    ensures AllGuarded(AfterFinalize(c).log) && TailOk(AfterFinalize(c))
  {
    FinalizeKeepsSafe(c);
    var p, claim := c.worker.pass, c.worker.point.claim;
    assert Agrees(c.tables, p.snapshot[p.i]);
    var e := Finalized(claim.id, c.tables);
    assert FinalizeGuarded(c.log + [e], |c.log|);
    AppendGuarded(c.log, e);
    EndClaimGuarded(Log(c.(tables := FinalizeClaim(c.tables, claim.id).tables), e), Progress);
  }

  lemma EnsureGuarded(c: Core, newHost: HostId)
    requires Safe(c) && AllGuarded(c.log) && At(c, DoEnsure(newHost))
    ensures AllGuarded(AfterEnsure(c, newHost).log) && TailOk(AfterEnsure(c, newHost))
  {
    var claim, plan := c.worker.point.claim, c.worker.point.plan;
    var reply := EnsureHost(c.tables, claim.id, plan.id, plan.resources, newHost, c.clock);
    var c' := c.(tables := reply.tables);
    match reply.result
    case Ok(_) => EndClaimGuarded(c', Progress);
    case Err(Conflict) => EndClaimGuarded(c'.(permit := true), Idle);
    case Err(NotFound) => EndClaimGuarded(c'.(permit := true), Idle);
    case Err(e) => EndPassGuarded(c', Aborted(e));
  }

  lemma PersistGuarded(c: Core)
    requires AllGuarded(c.log) && At(c, DoPersist)
    ensures AllGuarded(AfterPersist(c).log) && TailOk(AfterPersist(c))
  {
    var claim := c.worker.point.claim;
    EndClaimGuarded(c.(tables := SaveClaimStatus(c.tables, claim), permit := c.permit || !Current(c.tables, claim)),
                    c.worker.point.result);
  }

  lemma SelectGuarded(c: Core, selected: Selected)
    requires AllGuarded(c.log) && At(c, DoSelect(selected))
    ensures AllGuarded(AfterSelect(c, selected).log) && TailOk(AfterSelect(c, selected))
  {
    EndClaimGuarded(c, Idle);
  }

  lemma EnvironmentLogsNothing(c: Core, a: Action, c': Core)
    requires Step(c, a, c') && IsEnvironment(a)
    ensures c'.log == c.log
    ensures c'.worker.Busy? ==> c'.worker == c.worker
  {}

  lemma StepKeepsGuards(c: Core, a: Action, c': Core)
    requires Safe(c) && AllGuarded(c.log) && TailOk(c) && Step(c, a, c')
    ensures AllGuarded(c'.log) && TailOk(c')
  {
    if IsEnvironment(a) {
      EnvironmentLogsNothing(c, a, c');
    } else {
      WorkKeepsGuards(c, a, c');
    }
  }

  lemma WorkKeepsGuards(c: Core, a: Action, c': Core)
    requires Safe(c) && AllGuarded(c.log) && TailOk(c) && Step(c, a, c') && !IsEnvironment(a)
    ensures AllGuarded(c'.log) && TailOk(c')
  {
    hide SetCondition, AfterSaving, AfterObserve, AfterEnsure, AfterScan, AfterFetch, AfterPersist, AfterSelect,
         AfterFinalize, AfterCreate, AfterDelete;
    match a
    case List(s) => AppendGuarded(c.log, PassStarted);
    case ListFails => AppendGuarded(c.log, PassEnded(Aborted(Internal)));
    case ScanNext => ScanGuarded(c);
    case DoFetch => FetchGuarded(c);
    case DoObserve(obs) => ObserveGuarded(c, obs);
    case DoSave => SaveGuarded(c);
    case DoCreate(creation, _) => CreateIsGuarded(c, creation);
    case DoDelete(deletion) => DeleteIsGuarded(c, deletion);
    case DoPersist => PersistGuarded(c);
    case DoFinalize => FinalizeIsGuarded(c);
    case DoSelect(selected) => SelectGuarded(c, selected);
    case DoEnsure(h) => EnsureGuarded(c, h);
    case StorageFails => EndPassGuarded(c, Aborted(Internal));
  }

  lemma ScanGuarded(c: Core)
    requires Safe(c) && AllGuarded(c.log) && At(c, ScanNext)
    ensures AllGuarded(AfterScan(c).log) && TailOk(AfterScan(c))
  {
    EndPassGuarded(c, Finished(Idle));
    EndClaimGuarded(c, Idle);
  }

  lemma FetchGuarded(c: Core)
    requires Safe(c) && AllGuarded(c.log) && At(c, DoFetch)
    ensures AllGuarded(AfterFetch(c).log) && TailOk(AfterFetch(c))
  {
    FetchKeepsSafe(c);
    EndClaimGuarded(c, Idle);
  }

  /* ---------- wake-ups ---------- */

  /** The loop will still list after mutation `m`, or already has, unless the
      first listing of a drain fails. */
  predicate WillSee(c: Core, m: nat) {
    || m in c.unwoken || m < c.listed
    || c.permit || c.worker == Down
    || (c.worker.Listing? && c.worker.used == 0)
    || (c.worker == Parked && c.lastDrain == ListingFailed(0))
  }

  predicate WakeOk(c: Core) {
    && c.listed <= c.mutations
    && (forall m :: m in c.unwoken ==> m < c.mutations)
    && (forall m :: 0 <= m < c.mutations ==> WillSee(c, m))
    && (c.worker == Parked && (c.lastDrain == ReachedStepLimit || c.lastDrain == NoDrainYet) ==> c.permit)
  }

  /** A Busy worker stays Busy or ends its pass; only its permit can appear. */
  lemma WorkKeepsWake(c: Core, a: Action, c': Core)
    requires WakeOk(c) && c.worker.Busy? && Step(c, a, c')
    requires !IsEnvironment(a)
    ensures WakeOk(c')
  {
    hide Step, Reports, MovesOn;
    WorkIsWorkStep(c, a, c');
    forall m | 0 <= m < c.mutations ensures WillSee(c', m) {
      assert WillSee(c, m);
    }
  }

  lemma StepKeepsWake(c: Core, a: Action, c': Core)
    requires WakeOk(c) && Step(c, a, c')
    ensures WakeOk(c')
  {
    hide CreateClaim, MarkClaimDeleting, IsListing, AfterScan, AfterFetch, AfterObserve, AfterSaving, AfterCreate,
         AfterDelete, AfterPersist, AfterFinalize, AfterSelect, AfterEnsure;
    if c.worker.Busy? && !IsEnvironment(a) {
      WorkKeepsWake(c, a, c');
    } else {
      forall m | 0 <= m < c'.mutations ensures WillSee(c', m) {
        assert m < c.mutations ==> WillSee(c, m);
      }
    }
  }

  /* ---------- what one step does to a row ---------- */

  /** A released row keeps its identity, its deletion time and Ready=False. */
  predicate StaysReleased(row: ClaimRow, later: ClaimRow) {
    && SameClaim(row, later)
    && later.deletionTimestamp == row.deletionTimestamp
    && ReadyIs(later.conditions, False)
  }

  /** The pass listed this claim as released. */
  predicate ListedReleased(p: Pass, id: HostClaimId) {
    exists k :: 0 <= k < |p.snapshot| && p.snapshot[k].id == id && Released(p.snapshot[k].row)
  }

  /** A released claim keeps its deletion time and its Ready=False until the row
      is removed; a worker that listed it before the release cannot touch it. */
  lemma ReleaseIsFinal(c: Core, a: Action, c': Core, id: HostClaimId)
    requires Safe(c) && Step(c, a, c') && id in c.tables.claims && Released(c.tables.claims[id])
    ensures id in c'.tables.claims ==> StaysReleased(c.tables.claims[id], c'.tables.claims[id])
    ensures c.worker.Busy? && !ListedReleased(c.worker.pass, id) ==>
              id in c'.tables.claims && c'.tables.claims[id] == c.tables.claims[id]
    ensures id !in c'.tables.claims ==> a.DoFinalize? && c.worker.point.claim.id == id
  {
    hide SetCondition, AfterSaving, AfterObserve, AfterEnsure, AfterScan, AfterFetch, AfterPersist, AfterSelect,
         AfterFinalize, AfterCreate, AfterDelete, AfterList;
    StepOnTables(c, a, c');
  }

  /** What identifies a row is never rewritten; a claim is only removed once it
      is released, and a host only together with its claim. */
  ghost predicate KeepsIdentity(t: Tables, u: Tables) {
    && (forall id :: id in t.claims && id in u.claims ==> SameClaim(t.claims[id], u.claims[id]))
    && (forall id :: id in t.claims && id !in u.claims ==> Released(t.claims[id]))
    && (forall h :: h in t.hosts && h in u.hosts ==> SameHost(t.hosts[h], u.hosts[h]))
    && (forall h :: h in t.hosts && h !in u.hosts ==> t.hosts[h].claimId !in u.claims)
  }

  lemma EnsureKeepsIdentity(t: Tables, id: HostClaimId, plan: Plan, newHost: HostId, now: Timestamp)
    requires newHost !in t.hosts
    ensures KeepsIdentity(t, EnsureHost(t, id, plan.id, plan.resources, newHost, now).tables)
  {
    hide SetCondition;
  }

  lemma SaveKeepsIdentity(t: Tables, host: HostRecord)
    ensures KeepsIdentity(t, SaveHost(t, host).tables)
  {}

  lemma PersistKeepsIdentity(t: Tables, claim: ClaimRecord)
    ensures KeepsIdentity(t, SaveClaimStatus(t, claim))
  {}

  lemma FinalizeKeepsIdentity(t: Tables, id: HostClaimId)
    requires id in t.claims ==> Released(t.claims[id])
    ensures KeepsIdentity(t, FinalizeClaim(t, id).tables)
  {}

  lemma IdentityIsFixed(c: Core, a: Action, c': Core)
    requires Safe(c) && Step(c, a, c')
    ensures KeepsIdentity(c.tables, c'.tables)
  {
    hide SetCondition, EnsureHost, SaveHost, SaveClaimStatus, FinalizeClaim, CreateClaim, MarkClaimDeleting;
    StepOnTables(c, a, c');
    match a
    case DoEnsure(h) => EnsureKeepsIdentity(c.tables, c.worker.point.claim.id, c.worker.point.plan, h, c.clock);
    case DoSave => SaveKeepsIdentity(c.tables, c.worker.point.host);
    case DoPersist => PersistKeepsIdentity(c.tables, c.worker.point.claim);
    case DoFinalize =>
      assert Agrees(c.tables, c.worker.pass.snapshot[c.worker.pass.i]);
      FinalizeKeepsIdentity(c.tables, c.worker.point.claim.id);
    case RpcCreate(_, _) => RpcChanges(c, a, c');
    case RpcDelete(_) => RpcChanges(c, a, c');
    case _ =>
  }

  predicate Mentions(e: Event, h: HostId) {
    match e
    case Observed(host, _, _) => host == h
    case Saved(host, _) => host == h
    case CreateCalled(host, _, _) => host == h
    case DeleteCalled(host, _) => host == h
    case _ => false
  }

  /** The host the worker is about to call about or write, if any. */
  function Handling(c: Core): Option<HostId> {
    if !c.worker.Busy? then None
    else
      match c.worker.point
      case Observe(_, host) => Some(host.id)
      case Save(_, host, _) => Some(host.id)
      case Create(_, host) => Some(host.id)
      case Delete(_, host) => Some(host.id)
      case _ => None
  }

  predicate FailedAndLive(t: Tables, h: HostId) {
    && h in t.hosts && t.hosts[h].phase == HostPhase.Failed
    && t.hosts[h].claimId in t.claims && !Released(t.claims[t.hosts[h].claimId])
  }

  lemma NeverHandlesFailed(c: Core, h: HostId)
    requires Safe(c) && FailedAndLive(c.tables, h)
    ensures Handling(c) != Some(h)
    ensures c.worker.Busy? && c.worker.point.Finalize? ==> c.worker.point.claim.id != c.tables.hosts[h].claimId
  {
    if c.worker.Busy? && c.worker.pass.i < |c.worker.pass.snapshot| {
      assert Agrees(c.tables, c.worker.pass.snapshot[c.worker.pass.i]);
    }
  }

  /** A step appends entries only, and only about the host the worker handles. */
  ghost predicate GrowsBy(c: Core, c': Core) {
    && c.log <= c'.log
    && forall i: nat, h: HostId :: |c.log| <= i < |c'.log| && Mentions(c'.log[i], h) ==> Handling(c) == Some(h)
  }

  lemma SaveGrows(c: Core)
    requires At(c, DoSave)
    ensures GrowsBy(c, AfterSaving(c))
  {}

  lemma EnsureGrows(c: Core, h: HostId)
    requires At(c, DoEnsure(h))
    ensures GrowsBy(c, AfterEnsure(c, h))
  {}

  lemma ObserveGrows(c: Core, obs: Observed)
    requires At(c, DoObserve(obs))
    ensures GrowsBy(c, AfterObserve(c, obs))
  {}

  lemma LogGrows(c: Core, a: Action, c': Core)
    requires Step(c, a, c')
    ensures GrowsBy(c, c')
  {
    hide SetCondition, AfterSaving, AfterObserve, AfterEnsure, SaveHost, EnsureHost;
    if IsEnvironment(a) {
      EnvironmentLogsNothing(c, a, c');
    } else {
      match a
      case DoObserve(obs) => ObserveGrows(c, obs);
      case DoSave => SaveGrows(c);
      case DoEnsure(h) => EnsureGrows(c, h);
      case _ =>
    }
  }

  lemma TransactionsKeepHost(c: Core, a: Action, h: HostId, row: HostRow)
    requires Schema(c.tables) && (exists c' :: Step(c, a, c')) && h in c.tables.hosts && c.tables.hosts[h] == row
    requires !(a.DoSave? && Handling(c) == Some(h)) && row.claimId in TablesAfter(c, a).claims
    ensures h in TablesAfter(c, a).hosts && TablesAfter(c, a).hosts[h] == row
  {
    hide SetCondition, AfterSaving, AfterObserve, AfterEnsure, AfterScan, AfterFetch, AfterPersist, AfterSelect,
         AfterFinalize, AfterCreate, AfterDelete, AfterList;
  }

  /** Only a save of this host, or the end of its claim, changes its row. */
  lemma HostRowIsKept(c: Core, a: Action, c': Core, h: HostId, row: HostRow)
    requires Safe(c) && Step(c, a, c') && h in c.tables.hosts && c.tables.hosts[h] == row
    requires !(a.DoSave? && Handling(c) == Some(h)) && row.claimId in c'.tables.claims
    ensures h in c'.tables.hosts && c'.tables.hosts[h] == row
  {
    hide SetCondition, EnsureHost, SaveHost, FinalizeClaim, SaveClaimStatus, CreateClaim, MarkClaimDeleting, WorkerOk,
         AfterSaving, AfterObserve, AfterEnsure, AfterScan, AfterFetch, AfterPersist, AfterSelect, AfterFinalize,
         AfterCreate, AfterDelete, AfterList;
    StepOnTables(c, a, c');
    TransactionsKeepHost(c, a, h, row);
  }

  lemma SavesOnlyAtSave(c: Core, a: Action, c': Core)
    requires Step(c, a, c')
    ensures a.DoSave? ==> At(c, DoSave)
  {}

  lemma NoHostAfter(c: Core, a: Action, c': Core)
    requires Step(c, a, c') && (a.ScanNext? || a.DoPersist? || a.DoFinalize? || a.DoSelect? || a.DoEnsure?)
    ensures Handling(c') == None
  {
    hide EnsureHost, FinalizeClaim, SaveClaimStatus, T.MarkUnsatisfiable, T.ScheduleClaimError;
  }

  /** The worker turns to another host only by fetching it. */
  lemma HandlingMoves(c: Core, a: Action, c': Core, h: HostId)
    requires Step(c, a, c') && Handling(c') == Some(h) && !a.DoObserve?
    ensures Handling(c) == Some(h) || a.DoFetch?
    ensures a.RpcCreate? || a.RpcDelete? || a.RpcWake? || a.Tick? || Handling(c) != Some(h)
            || c.worker.point.Save? || c.worker.point.Create? || c.worker.point.Delete?
    ensures a.RpcCreate? || a.RpcDelete? || a.RpcWake? || a.Tick? ==> c'.worker == c.worker
  {
    hide AfterScan, AfterFetch, AfterObserve, AfterPersist, AfterFinalize, AfterSelect, AfterEnsure, SaveHost,
         CreateClaim, MarkClaimDeleting, IsListing, NowUnixMs, SetCondition;
    if a.ScanNext? || a.DoPersist? || a.DoFinalize? || a.DoSelect? || a.DoEnsure? { NoHostAfter(c, a, c'); }
  }

  lemma LiveClaimStays(c: Core, a: Action, c': Core, id: HostClaimId)
    requires Safe(c) && Step(c, a, c') && id in c.tables.claims && !Released(c.tables.claims[id])
    ensures id in c'.tables.claims
  {
    hide Safe, Step;
    IdentityIsFixed(c, a, c');
  }

  /** While its claim is live, a failed host is left alone: no write to its row
      and no provider call for it. */
  lemma FailedIsAbsorbing(c: Core, a: Action, c': Core, h: HostId)
    requires Safe(c) && Step(c, a, c') && FailedAndLive(c.tables, h)
    ensures h in c'.tables.hosts && c'.tables.hosts[h] == c.tables.hosts[h]
    ensures c.log <= c'.log && forall i :: |c.log| <= i < |c'.log| ==> !Mentions(c'.log[i], h)
  {
    hide Safe, Step;
    NeverHandlesFailed(c, h);
    LogGrows(c, a, c');
    LiveClaimStays(c, a, c', c.tables.hosts[h].claimId);
    HostRowIsKept(c, a, c', h, c.tables.hosts[h]);
  }
}
