/** What becomes of provider calls that fail or whose response is lost. */
module Outcomes {
  import opened Wrappers
  import opened Domain
  import opened Provider
  import opened Tables
  import opened Protocol
  import opened Invariants
  import opened Guarantees
  import opened Theorems
  import opened Fake
  import opened FakeSystem
  import opened FailedHosts
  import opened FakeTheorems
  import opened Status
  import opened StatusSteps
  import opened StatusTheorems
  import T = Transitions

  /* ---------- the retry, against any provider ---------- */

  predicate LosesResponse(a: Action) {
    || (a.DoCreate? && a.creation == Ok(CreateOutcome.OutcomeUnknown))
    || (a.DoDelete? && a.deletion == Ok(DeleteOutcome.OutcomeUnknown))
  }

  /** What the row says once the response was lost in a pass of this reading. */
  predicate AsksAgain(row: HostRow, a: Action, nowMs: i64) {
    && row.retry.nextReconcileAt == Some(Saturate(nowMs + 1_000))
    && (a.DoCreate? ==>
          && row.phase == HostPhase.Provisioning && row.retry.attempt == 1
          && row.retry.lastErrorKind == Some(CreateOutcomeUnknown)
          && row.retry.lastErrorMessage == Some(MayHaveCreated)
          && Shows(row.conditions, READY, Unknown, CreateOutcomeUnknown, MayHaveCreated, 1))
    && (a.DoDelete? ==>
          && row.phase == HostPhase.Deleting && row.retry.attempt == 0
          && row.retry.lastErrorKind == Some(DeleteOutcomeUnknown)
          && row.retry.lastErrorMessage == Some(MayHaveDeleted))
  }

  /** The worker is about to store a row of the same host and resource. */
  predicate AboutToStore(c: Core, row: HostRow, h: HostId) {
    && c.worker.Busy? && c.worker.point.Save? && c.worker.point.host == HostRecord(h, row)
    && h in c.tables.hosts && SameHost(row, c.tables.hosts[h]) && row.resourceId == c.tables.hosts[h].resourceId
  }

  lemma LossIsNoted(c: Core, a: Action, c': Core)
    requires Safe(c) && Step(c, a, c') && LosesResponse(a)
    ensures c.worker.Busy? && (c.worker.point.Create? || c.worker.point.Delete?)
    ensures c'.worker.Busy? && c'.worker.point.Save?
    ensures var row := c'.worker.point.host.row;
            AboutToStore(c', row, c.worker.point.host.id) && AsksAgain(row, a, c.worker.pass.now)
  {
    hide AsksAgain, OnCreation, OnDeletion, TablesOk, PassOk;
    var claim, host := c.worker.point.claim, c.worker.point.host;
    LossAsksAgain(claim, host, a, c.worker.pass.now, c.clock);
  }

  lemma LossAsksAgain(claim: ClaimRecord, host: HostRecord, a: Action, nowMs: i64, now: Timestamp)
    requires LosesResponse(a) && host.row.retry == NO_RETRY && (a.DoDelete? ==> host.row.phase == HostPhase.Deleting)
    ensures var after := if a.DoCreate? then OnCreation(claim, host, a.creation, nowMs, now).host
                         else OnDeletion(host, a.deletion, nowMs);
            && AsksAgain(after.row, a, nowMs) && after.id == host.id && SameHost(after.row, host.row)
            && after.row.resourceId == host.row.resourceId
  {
    hide SetCondition, Lookup;
    SettingShows();
  }

  lemma NotedIsStored(c: Core, row: HostRow, h: HostId)
    requires Schema(c.tables) && AboutToStore(c, row, h)
    ensures var d := AfterSaving(c); h in d.tables.hosts && d.tables.hosts[h] == row
  {
    assert row.resourceId.Some? ==> !RecordedElsewhere(c.tables, h, row.resourceId.value);
  }

  /** What others may do while the worker waits for a call to return. */
  predicate Outside(a: Action) {
    a.RpcCreate? || a.RpcDelete? || a.RpcWake? || a.Tick?
  }

  lemma OutsideKeepsHosts(c: Core, a: Action, c': Core)
    requires Step(c, a, c') && Outside(a)
    ensures c'.worker == c.worker && c'.tables.hosts == c.tables.hosts
  {}

  lemma {:induction false} WaitingKeeps(cs: seq<Core>, actions: seq<Action>, i: nat, j: nat)
    requires Run(cs, actions) && i <= j <= |actions|
    requires forall m :: i <= m < j ==> Outside(actions[m])
    ensures cs[j].worker == cs[i].worker && cs[j].tables.hosts == cs[i].tables.hosts
    decreases j
  {
    hide Step;
    if i < j {
      WaitingKeeps(cs, actions, i, j - 1);
      OutsideKeepsHosts(cs[j - 1], actions[j - 1], cs[j]);
    }
  }

  /** A lost response is asked about again: over runs, the save that follows the lost
      response to a create or a delete, whatever others do in between, stores the
      deadline exactly a second after the reading of the pass, the kind of the
      error and the phase in which the next lookup finds out. */
  lemma LostResponsesAreRetried(cs: seq<Core>, actions: seq<Action>, i: nat, j: nat)
    requires Run(cs, actions) && Init(cs[0]) && i < j < |actions|
    requires LosesResponse(actions[i]) && actions[j].DoSave?
    requires forall m :: i < m < j ==> Outside(actions[m])
    ensures cs[i].worker.Busy? && (cs[i].worker.point.Create? || cs[i].worker.point.Delete?)
    ensures var h := cs[i].worker.point.host.id;
            && h in cs[j + 1].tables.hosts
            && AsksAgain(cs[j + 1].tables.hosts[h], actions[i], cs[i].worker.pass.now)
  {
    hide Safe, AllGuarded, TailOk, WakeOk, Step, Init, AsksAgain, AfterSaving;
    RunsAreGood(cs, actions, i);
    LossIsNoted(cs[i], actions[i], cs[i + 1]);
    WaitingKeeps(cs, actions, i + 1, j);
    RunsAreGood(cs, actions, j);
    SafeHasSchema(cs[j]);
    SavedBy(cs[j], actions[j], cs[j + 1]);
    NotedIsStored(cs[j], cs[i + 1].worker.point.host.row, cs[i].worker.point.host.id);
  }

  lemma SavedBy(c: Core, a: Action, c': Core)
    requires Step(c, a, c') && a.DoSave?
    ensures At(c, a) && c' == AfterSaving(c)
  {}

  /** A resource that is another's is never touched: over runs, a lookup that contradicts
      the recorded ID leads to no call, only to a failed host with both IDs on
      record, in the deletion loop with a deadline the clock does not pass. */
  lemma ConflictsAreSetAside(cs: seq<Core>, actions: seq<Action>, k: nat, r: ProviderResource)
    requires Run(cs, actions) && k < |actions| && actions[k] == DoObserve(Ok(Present(r)))
    requires At(cs[k], actions[k]) && cs[k].worker.point.host.row.resourceId.Some?
    requires cs[k].worker.point.host.row.resourceId.value != r.id
    ensures var was, next := cs[k].worker.point.host, cs[k + 1].worker;
            var message := OwnershipMismatch(was.row.resourceId.value, r.id);
            && next.Busy? && next.point.Save? && next.point.after == ThenPersist(Progress)
            && next.point.host.id == was.id && next.point.host.row.resourceId == was.row.resourceId
            && next.point.host.row.phase == HostPhase.Failed
            && next.point.host.row.retry
               == RetryState(was.row.retry.attempt, if cs[k].worker.pass.live then None else Some(I64_MAX),
                             Some(ProviderOwnershipConflict), Some(message))
            && T.BothShow(next.point.claim, next.point.host, False, ProviderOwnershipConflict, message)
  {
    hide SetCondition, Lookup, Shows, T.SetOn;
    assert Step(cs[k], actions[k], cs[k + 1]);
    var claim, host := cs[k].worker.point.claim, cs[k].worker.point.host;
    T.MarksShow(claim, host, ProviderOwnershipConflict, OwnershipMismatch(host.row.resourceId.value, r.id), 0,
                cs[k].clock);
  }

  /** The time of observation: over runs, the row about to be stored after a provider
      call is dated at that step when the answer told about the host's own resource,
      and keeps its date after an error, a conflict, a delete or a lookup that only
      leads to a create. */
  lemma ObservationsAreDated(cs: seq<Core>, actions: seq<Action>, k: nat)
    requires Run(cs, actions) && k < |actions| && At(cs[k], actions[k])
    requires actions[k].DoObserve? || actions[k].DoCreate? || actions[k].DoDelete?
    ensures cs[k + 1].worker.Busy? && (cs[k + 1].worker.point.Save? || cs[k + 1].worker.point.Finalize?)
    ensures cs[k + 1].worker.point.Save? ==>
              var was, next := cs[k].worker.point.host.row, cs[k + 1].worker.point;
              next.host.row.observedAt
              == (if TellsAbout(was, actions[k]) && next.after != ThenCreate then Some(cs[k].clock) else was.observedAt)
  {
    hide SetCondition, RetryDeadline;
    assert Step(cs[k], actions[k], cs[k + 1]);
    var point, nowMs, now := cs[k].worker.point, cs[k].worker.pass.now, cs[k].clock;
    match actions[k]
    case DoObserve(obs) => ObservedIsDated(point.claim, point.host, obs, nowMs, now, cs[k].worker.pass.live);
    case DoCreate(creation, _) => CreatedIsDated(point.claim, point.host, creation, nowMs, now);
    case DoDelete(_) =>
  }

  lemma ObservedIsDated(claim: ClaimRecord, host: HostRecord, obs: Observed, nowMs: i64, now: Timestamp, live: bool)
    ensures var next := if live then OnLiveObservation(claim, host, obs, nowMs, now)
                        else OnDeletingObservation(claim, host, obs, nowMs, now);
            && (next.Save? || next.Finalize?)
            && (next.Save? ==>
                  next.host.row.observedAt
                  == if TellsAbout(host.row, DoObserve(obs)) && next.after != ThenCreate then Some(now)
                     else host.row.observedAt)
  {
    hide SetCondition, RetryDeadline;
    match obs
    case Ok(Present(r)) =>
      assert host.row.resourceId.Some? && host.row.resourceId.value != r.id <==> !TellsAbout(host.row, DoObserve(obs));
    case Ok(Absent) =>
    case Err(e) =>
  }

  lemma CreatedIsDated(claim: ClaimRecord, host: HostRecord, creation: Creation, nowMs: i64, now: Timestamp)
    ensures OnCreation(claim, host, creation, nowMs, now).host.row.observedAt
         == if creation.Ok? then Some(now) else host.row.observedAt
  {
    hide SetCondition, RetryDeadline;
  }

  predicate TellsAbout(row: HostRow, a: Action) {
    match a
    case DoObserve(Ok(Present(r))) => row.resourceId in {None, Some(r.id)}
    case DoObserve(Ok(Absent)) => true
    case DoCreate(creation, _) => creation.Ok?
    case _ => false
  }

  /* ---------- the outcome, with the fake provider ---------- */

  /** An unknown create did take place, and an unknown delete did. */
  predicate Rediscoverable(h: HostId, row: HostRow, f: FakeDb) {
    && (row.retry.lastErrorKind == Some(CreateOutcomeUnknown) ==> h in f.resources)
    && (row.retry.lastErrorKind == Some(DeleteOutcomeUnknown) ==> h !in f.resources)
  }

  ghost predicate AllRediscoverable(w: World) {
    && (forall h :: h in w.core.tables.hosts ==> Rediscoverable(h, w.core.tables.hosts[h], w.fake))
    && (w.core.worker.Busy? && w.core.worker.point.Save? ==>
          Rediscoverable(w.core.worker.point.host.id, w.core.worker.point.host.row, w.fake))
  }

  lemma RowComesFrom(c: Core, a: Action, c': Core, h: HostId)
    requires Step(c, a, c') && h in c'.tables.hosts
    ensures var row := c'.tables.hosts[h];
            || (h in c.tables.hosts && row == c.tables.hosts[h])
            || (a.DoSave? && At(c, a) && c.worker.point.host.id == h && row.retry == c.worker.point.host.row.retry)
            || row.retry == NO_RETRY
  {
    hide SetCondition, AfterSaving, AfterObserve, AfterEnsure, AfterScan, AfterFetch, AfterPersist, AfterSelect,
         AfterFinalize, AfterCreate, AfterDelete, AfterList;
    StepOnTables(c, a, c');
    SavesOnlyAtSave(c, a, c');
  }

  /** A save is only prepared by the three provider calls. */
  lemma SaveComesFrom(c: Core, a: Action, c': Core)
    requires Step(c, a, c') && c'.worker.Busy? && c'.worker.point.Save?
    ensures a.DoObserve? || a.DoCreate? || a.DoDelete? || c'.worker == c.worker
  {
    hide AfterObserve, AfterCreate, AfterDelete, SaveHost, EnsureHost, FinalizeClaim, SaveClaimStatus, CreateClaim,
         MarkClaimDeleting, T.MarkUnsatisfiable, T.ScheduleClaimError;
  }

  lemma ObservedKind(claim: ClaimRecord, host: HostRecord, obs: Observed, nowMs: i64, now: Timestamp, live: bool)
    ensures var next := if live then OnLiveObservation(claim, host, obs, nowMs, now)
                        else OnDeletingObservation(claim, host, obs, nowMs, now);
            next.Save? ==>
              next.host.row.retry.lastErrorKind !in {Some(CreateOutcomeUnknown), Some(DeleteOutcomeUnknown)}
  {
    hide SetCondition, RetryDeadline;
  }

  /** The provider calls touch the resource of the host at hand only, which has no
      pending retry then. */
  lemma CallKeepsOutcomes(w: World, a: WorldAction, w': World)
    requires Sound(w) && WorldStep(w, a, w') && !a.InjectFault? && (a.action.DoCreate? || a.action.DoDelete?)
    requires AllRediscoverable(w)
    ensures AllRediscoverable(w')
  {
    hide Sound, Step, SetCondition, RetryDeadline, Offers;
    CallPoint(w, a.action);
    AfterCall(w.core, a.action, w'.core);
    var h := w.core.worker.point.host.id;
    assert forall g :: g != h ==> (g in w'.fake.resources <==> g in w.fake.resources);
  }

  lemma AfterCall(c: Core, a: Action, c': Core)
    requires Step(c, a, c') && (a.DoCreate? || a.DoDelete?)
    ensures At(c, a) && c'.tables == c.tables && c'.worker.Busy? && c'.worker.point.Save?
    ensures var was, host := c.worker.point.host, c'.worker.point.host;
            && host.id == was.id
            && (host.row.retry.lastErrorKind == Some(CreateOutcomeUnknown) && was.row.retry == NO_RETRY ==>
                  a.DoCreate? && a.creation == Ok(CreateOutcome.OutcomeUnknown))
            && (host.row.retry.lastErrorKind == Some(DeleteOutcomeUnknown) && was.row.retry == NO_RETRY ==>
                  a.DoDelete? && a.deletion == Ok(DeleteOutcome.OutcomeUnknown))
  {
    hide SetCondition, RetryDeadline;
  }

  lemma CallPoint(w: World, a: Action)
    requires Sound(w) && At(w.core, a) && (a.DoCreate? || a.DoDelete?)
    ensures var host := w.core.worker.point.host;
            && host.id in w.core.tables.hosts && w.core.tables.hosts[host.id] == host.row && host.row.retry == NO_RETRY
            && (a.DoCreate? ==> host.id !in w.fake.resources && host.row.phase == HostPhase.Provisioning)
            && (a.DoDelete? ==> host.id in w.fake.resources && host.row.phase == HostPhase.Deleting)
  {
    hide TablesOk, PassOk, Backed, PassBacked;
  }

  lemma StepKeepsOutcomes(w: World, a: WorldAction, w': World)
    requires Sound(w) && AllRediscoverable(w) && WorldStep(w, a, w')
    ensures AllRediscoverable(w')
  {
    hide Sound, Step, Answers, FailsAnyhow;
    if !a.InjectFault? {
      if a.action.DoCreate? || a.action.DoDelete? {
        CallKeepsOutcomes(w, a, w');
      } else {
        OtherKeepsOutcomes(w, a, w');
      }
    }
  }

  lemma OtherKeepsOutcomes(w: World, a: WorldAction, w': World)
    requires AllRediscoverable(w) && WorldStep(w, a, w') && !a.InjectFault?
    requires !a.action.DoCreate? && !a.action.DoDelete?
    ensures AllRediscoverable(w')
  {
    hide Step;
    var c, d := w.core, w'.core;
    assert w'.fake.resources == w.fake.resources;
    forall h | h in d.tables.hosts ensures Rediscoverable(h, d.tables.hosts[h], w'.fake) {
      RowComesFrom(c, a.action, d, h);
    }
    if d.worker.Busy? && d.worker.point.Save? {
      SaveComesFrom(c, a.action, d);
      if a.action.DoObserve? { ObservedSave(c, a.action, d); }
    }
  }

  lemma ObservedSave(c: Core, a: Action, c': Core)
    requires Step(c, a, c') && a.DoObserve? && c'.worker.Busy? && c'.worker.point.Save?
    ensures c'.worker.point.host.row.retry.lastErrorKind !in {Some(CreateOutcomeUnknown), Some(DeleteOutcomeUnknown)}
  {
    hide OnLiveObservation, OnDeletingObservation;
    ObservedKind(c.worker.point.claim, c.worker.point.host, a.observed, c.worker.pass.now, c.clock, c.worker.pass.live);
  }

  lemma {:induction false} RunsAreRediscoverable(ws: seq<World>, actions: seq<WorldAction>, k: nat)
    requires WorldRun(ws, actions) && WorldInit(ws[0]) && k <= |actions|
    ensures AllRediscoverable(ws[k])
  {
    hide Sound, AllRediscoverable, WorldStep;
    if k == 0 {
      assert AllRediscoverable(ws[0]) by { NothingToRediscover(ws[0]); }
    } else {
      RunsAreRediscoverable(ws, actions, k - 1);
      RunsAreSound(ws, actions, k - 1);
      StepKeepsOutcomes(ws[k - 1], actions[k - 1], ws[k]);
    }
  }

  lemma NothingToRediscover(w: World)
    requires WorldInit(w)
    ensures AllRediscoverable(w)
  {}

  /** A create whose response was lost is found: in every run a live lookup, with no
      observation fault left, of a host whose create has an unknown outcome finds
      its resource, and both records are then stored as Ready. */
  lemma LostCreateIsFound(ws: seq<World>, actions: seq<WorldAction>, k: nat, obs: Observed)
    requires WorldRun(ws, actions) && WorldInit(ws[0]) && k < |actions| && actions[k] == Of(DoObserve(obs))
    requires At(ws[k].core, DoObserve(obs)) && ws[k].core.worker.pass.live && ws[k].fake.faults.observeTransient == 0
    requires ws[k].core.worker.point.host.row.retry.lastErrorKind == Some(CreateOutcomeUnknown)
    ensures var h := ws[k].core.worker.point.host.id;
            var next := ws[k + 1].core.worker;
            && h in ws[k].fake.resources
            && next.Busy? && next.point.Save? && next.point.after == ThenPersist(Progress)
            && next.point.host.row.phase == HostPhase.Ready && next.point.host.row.retry == NO_RETRY
            && next.point.host.row.resourceId == Some(ws[k].fake.resources[h].id)
            && ReadyIs(next.point.host.row.conditions, True) && ReadyIs(next.point.claim.row.conditions, True)
  {
    hide Sound, Safe, SetCondition, Lookup, WorldInit;
    RunsAreSound(ws, actions, k);
    RunsAreRediscoverable(ws, actions, k);
    assert WorldStep(ws[k], actions[k], ws[k + 1]);
    var claim, host := ws[k].core.worker.point.claim, ws[k].core.worker.point.host;
    SoundIsSafe(ws[k]);
    ObservedRow(ws[k].core);
    CurrentHost(ws[k]);
    ObserveCases(ws[k].fake, host.id);
    T.ObservationShows(claim, host, obs.value.resource, ws[k].core.clock);
  }

  /** A delete whose response was lost is found: the deletion loop's lookup of such a
      host, with no observation fault left, finds it absent, and the claim is then
      finalized. */
  lemma LostDeleteIsFound(ws: seq<World>, actions: seq<WorldAction>, k: nat, obs: Observed)
    requires WorldRun(ws, actions) && WorldInit(ws[0]) && k < |actions| && actions[k] == Of(DoObserve(obs))
    requires At(ws[k].core, DoObserve(obs)) && ws[k].fake.faults.observeTransient == 0
    requires ws[k].core.worker.point.host.row.retry.lastErrorKind == Some(DeleteOutcomeUnknown)
    ensures var claim, h, c := ws[k].core.worker.point.claim, ws[k].core.worker.point.host.id, ws[k + 1].core;
            && h !in ws[k].fake.resources && obs == Ok(Absent)
            && c.worker.Busy? && c.worker.point == Finalize(claim)
            && FinalizeClaim(c.tables, claim.id).result.Ok?
            && h in c.tables.hosts && h !in FinalizeClaim(c.tables, claim.id).tables.hosts
  {
    hide Sound, Safe, AllTells, SetCondition, Lookup, WorldInit, FinalizeClaim;
    RunsAreSound(ws, actions, k);
    RunsAreSound(ws, actions, k + 1);
    RunsAreRediscoverable(ws, actions, k);
    assert WorldStep(ws[k], actions[k], ws[k + 1]);
    var claim, host := ws[k].core.worker.point.claim, ws[k].core.worker.point.host;
    WorldRunsTell(ws, actions, k);
    SoundIsSafe(ws[k]);
    DeletingIsReleased(ws[k].core);
    ObservedRow(ws[k].core);
    CurrentHost(ws[k]);
    ObserveCases(ws[k].fake, host.id);
    SoundIsSafe(ws[k + 1]);
    FinalizeKeepsSafe(ws[k + 1].core);
    FinalizeRemovesHost(ws[k].core.tables, claim.id, host.id);
  }

  lemma DeletingIsReleased(c: Core)
    requires Safe(c) && AllTells(c) && c.worker.Busy? && c.worker.point.Observe?
    ensures c.worker.point.host.row.retry.lastErrorKind == Some(DeleteOutcomeUnknown) ==> !c.worker.pass.live
  {
    hide Safe, AllTells, ClaimTells, Lookup;
    CopiesTell(c);
  }

  /* ---------- the outcome by the fault injected ---------- */

  /** Over runs, a create does to the row about to be stored what the injections left
      call for: a definitive fault fails the host, a transient one defers it for two
      seconds, a lost response for one, and otherwise the host is Ready. */
  lemma CreateOutcomeByFault(ws: seq<World>, actions: seq<WorldAction>, k: nat, creation: Creation, r: ResourceId)
    requires WorldRun(ws, actions) && WorldInit(ws[0]) && k < |actions| && actions[k] == Of(DoCreate(creation, r))
    ensures At(ws[k].core, DoCreate(creation, r))
    ensures ws[k + 1].core.worker.Busy? && ws[k + 1].core.worker.point.Save?
    ensures var h, nowMs, f := ws[k].core.worker.point.host.id, ws[k].core.worker.pass.now, ws[k].fake.faults;
            var host := ws[k + 1].core.worker.point.host;
            && host.id == h
            && (if f.createDefinitive > 0 then
                  && host.row.phase == HostPhase.Failed && host.row.retry.nextReconcileAt == None
                  && host.row.retry.lastErrorKind == Some(ProviderRejected) && ReadyIs(host.row.conditions, False)
                  && h !in ws[k + 1].fake.resources
                else if f.createTransient > 0 then
                  && host.row.phase == HostPhase.Provisioning && host.row.retry.attempt == 1
                  && host.row.retry.nextReconcileAt == Some(Saturate(nowMs + 2_000))
                  && host.row.retry.lastErrorKind == Some(ProviderUnavailable)
                  && ReadyIs(host.row.conditions, Unknown) && h !in ws[k + 1].fake.resources
                else if f.createResponseLoss > 0 then
                  AsksAgain(host.row, DoCreate(creation, r), nowMs) && h in ws[k + 1].fake.resources
                else
                  && host.row.phase == HostPhase.Ready && host.row.retry == NO_RETRY
                  && ReadyIs(host.row.conditions, True)
                  && h in ws[k + 1].fake.resources && host.row.resourceId == Some(ws[k + 1].fake.resources[h].id))
  {
    hide Sound, WorldInit, SetCondition, Lookup, CreateResource, OnCreation, RetryDeadline, Pow2;
    RunsAreSound(ws, actions, k);
    assert WorldStep(ws[k], actions[k], ws[k + 1]);
    var c := ws[k].core;
    var claim, host, nowMs := c.worker.point.claim, c.worker.point.host, c.worker.pass.now;
    CallPoint(ws[k], DoCreate(creation, r));
    CurrentHost(ws[k]);
    CreateCases(ws[k].fake, host.id, host.row.planId, r);
    CreationIs(claim, host, creation, nowMs, c.clock);
  }

  lemma CreationIs(claim: ClaimRecord, host: HostRecord, creation: Creation, nowMs: i64, now: Timestamp)
    requires host.row.retry == NO_RETRY && host.row.phase == HostPhase.Provisioning
    ensures var b := OnCreation(claim, host, creation, nowMs, now).host;
            var retry := b.row.retry;
            && b.id == host.id
            && match creation
               case Ok(Created(resource)) =>
                 resource.lifecycle == ProviderLifecycle.Ready ==>
                   && b.row.phase == HostPhase.Ready && retry == NO_RETRY && b.row.resourceId == Some(resource.id)
                   && ReadyIs(b.row.conditions, True)
               case Ok(OutcomeUnknown) =>
                 AsksAgain(b.row, DoCreate(creation, 0), nowMs)
               case Err(Definitive(_)) =>
                 && b.row.phase == HostPhase.Failed && retry.nextReconcileAt == None
                 && retry.lastErrorKind == Some(ProviderRejected) && ReadyIs(b.row.conditions, False)
               case Err(Transient(_)) =>
                 && b.row.phase == HostPhase.Provisioning && retry.attempt == 1
                 && retry.nextReconcileAt == Some(Saturate(nowMs + 2_000))
                 && retry.lastErrorKind == Some(ProviderUnavailable) && ReadyIs(b.row.conditions, Unknown)
  {
    hide SetCondition, Lookup;
    SettingShows();
    T.DeadlineIsCapped(nowMs, 1);
    Pow2UpTo6();
  }

  /** And a delete: a transient fault defers the next lookup for two seconds, a lost
      response for one, and otherwise it is due at once; the resource is there in the
      first case only, and the row stays in phase Deleting in all. */
  lemma DeleteOutcomeByFault(ws: seq<World>, actions: seq<WorldAction>, k: nat, deletion: Deletion)
    requires WorldRun(ws, actions) && WorldInit(ws[0]) && k < |actions| && actions[k] == Of(DoDelete(deletion))
    ensures At(ws[k].core, DoDelete(deletion))
    ensures ws[k + 1].core.worker.Busy? && ws[k + 1].core.worker.point.Save?
    ensures var h, nowMs, f := ws[k].core.worker.point.host.id, ws[k].core.worker.pass.now, ws[k].fake.faults;
            var host, retry := ws[k + 1].core.worker.point.host, ws[k + 1].core.worker.point.host.row.retry;
            && host.id == h && host.row.phase == HostPhase.Deleting && ws[k + 1].core.worker.point.after == ThenProgress
            && (h in ws[k + 1].fake.resources <==> f.deleteTransient > 0)
            && (if f.deleteTransient > 0 then
                  && retry.attempt == 1 && retry.nextReconcileAt == Some(Saturate(nowMs + 2_000))
                  && retry.lastErrorKind == Some(ProviderUnavailable)
                else if f.deleteResponseLoss > 0 then AsksAgain(host.row, DoDelete(deletion), nowMs)
                else retry == NO_RETRY)
  {
    hide Sound, WorldInit, RetryDeadline, Pow2;
    RunsAreSound(ws, actions, k);
    assert WorldStep(ws[k], actions[k], ws[k + 1]);
    var host, nowMs := ws[k].core.worker.point.host, ws[k].core.worker.pass.now;
    CallPoint(ws[k], DoDelete(deletion));
    DeleteCases(ws[k].fake, host.id);
    T.DeadlineIsCapped(nowMs, 1);
    Pow2UpTo6();
  }
}
