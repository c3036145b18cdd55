/** What an undisturbed pass with every retry due proves when it ends. */
module Quiescence {
  import opened Wrappers
  import opened Domain
  import opened Provider
  import opened Tables
  import opened Protocol
  import opened Invariants
  import opened Catalog
  import opened Fake
  import opened FakeSystem
  import opened Convergence
  import T = Transitions

  /** A bound claim with nothing left to do: its host has failed, or it is Ready
      and the claim says so. */
  predicate HostSettled(row: ClaimRow, host: HostRow) {
    || host.phase == HostPhase.Failed
    || (host.phase == HostPhase.Ready && host.retry == NO_RETRY && ReadyIs(row.conditions, True))
  }

  /** A live claim with nothing left to do. */
  ghost predicate Settled(t: Tables, f: FakeDb, id: HostClaimId)
    requires id in t.claims
  {
    && !Released(t.claims[id])
    && match HostOf(t, id)
       case None => Best(f.plans, t.claims[id].spec).None? && T.ShowsUnsatisfiable(t.claims[id])
       case Some(h) => HostSettled(t.claims[id], t.hosts[h])
  }

  /** No retry is pending, of a host or of an unbound live claim that still has
      something to do. */
  ghost predicate AllDue(t: Tables, f: FakeDb, now: i64) {
    && (forall h :: h in t.hosts ==> t.hosts[h].retry.IsDue(now))
    && (forall id :: id in t.claims && ClaimWaits(t, id, now) ==> Settled(t, f, id))
  }

  /** An unbound live claim whose own retry is pending. */
  ghost predicate ClaimWaits(t: Tables, id: HostClaimId, now: i64)
    requires id in t.claims
  {
    !Released(t.claims[id]) && HostOf(t, id).None? && !t.claims[id].retry.IsDue(now)
  }

  /** No claim is left to release, every live claim is settled, and the provider
      holds exactly the resources of the Ready hosts. */
  ghost predicate Converged(t: Tables, f: FakeDb) {
    && (forall id :: id in t.claims ==> Settled(t, f, id))
    && (forall h :: h in f.resources <==> h in t.hosts && t.hosts[h].phase == HostPhase.Ready)
  }

  lemma SettledOwner(t: Tables, f: FakeDb, h: HostId, id: HostClaimId)
    requires Schema(t) && id in t.claims && Owns(t, h, id)
    ensures Settled(t, f, id) <==> !Released(t.claims[id]) && HostSettled(t.claims[id], t.hosts[h])
  {
    HostOfIs(t, h);
  }

  lemma SettledUnbound(t: Tables, f: FakeDb, u: Tables, id: HostClaimId)
    requires id in t.claims && id in u.claims && u.claims[id] == t.claims[id]
    requires HostOf(t, id).None? && HostOf(u, id).None? && Settled(t, f, id)
    ensures Settled(u, f, id)
  {}

  lemma SettledFrame(t: Tables, f: FakeDb, u: Tables, c: HostClaimId, id: HostClaimId)
    requires Schema(t) && Schema(u) && OnlyClaim(t, f, u, f, c) && id != c
    requires id in t.claims && Settled(t, f, id)
    ensures id in u.claims && Settled(u, f, id)
  {
    hide HostSettled, T.ShowsUnsatisfiable, Settled;
    if HostOf(t, id).Some? {
      var h := HostOf(t, id).value;
      assert Owns(u, h, id);
      SettledOwner(t, f, h, id);
      SettledOwner(u, f, h, id);
    } else {
      assert forall h :: Owns(u, h, id) ==> Owns(t, h, id);
      SettledUnbound(t, f, u, id);
    }
  }

  /* ---------- a pass that has found nothing to do so far ---------- */

  /** From here an undisturbed pass ends with Progress. */
  predicate WillProgress(point: Point) {
    match point
    case Save(_, _, after) => after != ThenPersist(Idle)
    case Create(_, _) => true
    case Delete(_, _) => true
    case Finalize(_) => true
    case Ensure(_, _) => true
    case Persist(_, result) => result == Progress
    case _ => false
  }

  ghost predicate IdlePoint(t: Tables, point: Point) {
    match point
    case Save(claim, host, _) =>
      host.row.phase == HostPhase.Ready && host.row.retry == NO_RETRY && ReadyIs(claim.row.conditions, True)
    case Persist(claim, _) =>
      && ReadyIs(claim.row.conditions, True)
      && claim.hostId.Some? && claim.hostId.value in t.hosts
      && t.hosts[claim.hostId.value].phase == HostPhase.Ready && t.hosts[claim.hostId.value].retry == NO_RETRY
    case _ => true
  }

  /** Every claim passed over so far is settled, and none is to be released. */
  ghost predicate PrefixDone(t: Tables, f: FakeDb, p: Pass)
    requires forall k :: 0 <= k < |p.snapshot| ==> p.snapshot[k].id in t.claims
  {
    && (forall k :: 0 <= k < |p.snapshot| && (p.live || k < p.i) ==> !Released(p.snapshot[k].row))
    && (p.live ==> forall k :: 0 <= k < |p.snapshot| && k < p.i ==> Settled(t, f, p.snapshot[k].id))
  }

  predicate SnapshotStored(w: World) {
    w.core.worker.Busy? ==>
      forall k :: 0 <= k < |w.core.worker.pass.snapshot| ==> w.core.worker.pass.snapshot[k].id in w.core.tables.claims
  }

  ghost predicate OnTrack(w: World) {
    && w.core.worker.Busy? && SnapshotStored(w)
    && PrefixDone(w.core.tables, w.fake, w.core.worker.pass)
    && (WillProgress(w.core.worker.point)
        || (AllDue(w.core.tables, w.fake, w.core.worker.pass.now) && IdlePoint(w.core.tables, w.core.worker.point)))
  }

  predicate EndsWith(c: Core, end: PassEnd) {
    |c.log| > 0 && c.log[|c.log| - 1] == PassEnded(end)
  }

  /** The pass is still on track, or it reported progress, or it is idle and the system has converged. */
  ghost predicate Outcome(w: World) {
    if w.core.worker.Busy? then OnTrack(w)
    else EndsWith(w.core, Finished(Progress)) || (EndsWith(w.core, Finished(Idle)) && Converged(w.core.tables, w.fake))
  }

  lemma AllSettledConverged(t: Tables, f: FakeDb, p: Pass)
    requires Schema(t) && Backed(t, f) && FreshPass(t, p) && p.live && p.i == |p.snapshot|
    requires forall k :: 0 <= k < |p.snapshot| ==> p.snapshot[k].id in t.claims
    requires PrefixDone(t, f, p)
    ensures Converged(t, f)
  {
    hide ReadyIs, Assigned, T.ShowsUnsatisfiable;
    forall id | id in t.claims ensures Settled(t, f, id) {
      var k :| 0 <= k < |p.snapshot| && p.snapshot[k].id == id;
    }
    forall h | h in t.hosts
      ensures h in f.resources <==> t.hosts[h].phase == HostPhase.Ready
    {
      assert Owns(t, h, t.hosts[h].claimId);
      SettledOwner(t, f, h, t.hosts[h].claimId);
      BackedRow(t, f, h);
    }
  }

  lemma ScanOnTrack(w: World, w': World)
    requires Sound(w) && Fresh(w) && OnTrack(w) && WorldStep(w, Of(ScanNext), w')
    ensures Outcome(w')
  {
    hide Backed, PassBacked, PointBacked, TablesOk, SetCondition, Settled, Converged, FreshPass;
    SafeHasSchema(w.core);
    var p := w.core.worker.pass;
    if p.i >= |p.snapshot| {
      if p.live {
        AllSettledConverged(w.core.tables, w.fake, p);
      }
    } else {
      WaitingIsSettled(w);
    }
  }

  /** A released claim is due, and a live one that waits has nothing left to do. */
  lemma WaitingIsSettled(w: World)
    requires Sound(w) && Fresh(w) && w.core.worker.Busy? && w.core.worker.pass.i < |w.core.worker.pass.snapshot|
    ensures var t, p := w.core.tables, w.core.worker.pass;
            var r := p.snapshot[p.i];
            && (Released(r.row) ==> r.row.retry == NO_RETRY)
            && (AllDue(t, w.fake, p.now) && !Released(r.row) && r.hostId.None? && !r.row.retry.IsDue(p.now) ==>
                  r.id in t.claims && Settled(t, w.fake, r.id))
  {
    hide Backed, PassBacked, PointBacked, TablesOk, Settled;
    assert Agrees(w.core.tables, w.core.worker.pass.snapshot[w.core.worker.pass.i]);
  }

  /** A step on a bound claim whose host is due keeps the others waiting for nothing. */
  lemma DueStays(t: Tables, u: Tables, f: FakeDb, c: HostClaimId, h: HostId, now: i64)
    requires Schema(t) && Schema(u) && OnlyClaim(t, f, u, f, c) && AllDue(t, f, now)
    requires Owns(u, h, c) && u.hosts[h].retry.IsDue(now)
    ensures AllDue(u, f, now)
  {
    hide Settled;
    forall id | id in u.claims && ClaimWaits(u, id, now) ensures Settled(u, f, id) {
      if id == c { HostOfIs(u, h); }
      assert forall g :: Owns(t, g, id) ==> Owns(u, g, id);
      SettledFrame(t, f, u, c, id);
    }
  }

  lemma FetchOnTrack(w: World, w': World)
    requires Sound(w) && Fresh(w) && OnTrack(w) && WorldStep(w, Of(DoFetch), w')
    ensures Outcome(w')
  {
    hide Backed, PassBacked, PointBacked, TablesOk, SetCondition, Settled, FreshPass;
    SafeHasSchema(w.core);
    CurrentClaim(w);
    FetchKeepsSafe(w.core);
    var claim := w.core.worker.point.claim;
    SettledOwner(w.core.tables, w.fake, claim.hostId.value, claim.id);
  }

  lemma ObserveOnTrack(w: World, obs: Observed, w': World)
    requires Sound(w) && Fresh(w) && OnTrack(w) && WorldStep(w, Of(DoObserve(obs)), w')
    ensures Outcome(w')
  {
    hide Backed, PassBacked, PointBacked, TablesOk, PassOk, SetCondition, Settled, FreshPass, ObserveHost, RowBacked;
    CurrentHost(w);
    ObserveCases(w.fake, w.core.worker.point.host.id);
    SettledIgnoresFaults(w.core.tables, w.fake, w'.fake);
    assert w.core.worker.pass.live || WillProgress(w'.core.worker.point);
  }

  lemma SettledIgnoresFaults(t: Tables, f: FakeDb, g: FakeDb)
    requires g.plans == f.plans
    ensures forall id :: id in t.claims && Settled(t, f, id) ==> Settled(t, g, id)
  {}

  lemma SaveOnTrack(w: World, w': World)
    requires Sound(w) && Fresh(w) && OnTrack(w) && WorldStep(w, Of(DoSave), w')
    ensures Outcome(w')
  {
    hide Sound, Fresh, SetCondition, Settled, SaveHost, OnlyClaim, Schema, AllDue, RowBacked;
    SoundHasSchema(w);
    CurrentClaim(w);
    CurrentHost(w);
    SaveWrites(w, w');
    var t, u, p := w.core.tables, w'.core.tables, w.core.worker.pass;
    SnapshotShape(w);
    if p.live { PrefixStaysSettled(t, u, w.fake, p.snapshot, p.i); }
    if AllDue(t, w.fake, p.now) && IdlePoint(t, w.core.worker.point) {
      DueStays(t, u, w.fake, w.core.worker.point.claim.id, w.core.worker.point.host.id, p.now);
    }
  }

  /** A step on the current claim leaves the claims before it settled. */
  lemma PrefixStaysSettled(t: Tables, u: Tables, f: FakeDb, snapshot: seq<ClaimRecord>, i: nat)
    requires Schema(t) && Schema(u) && i < |snapshot|
    requires OnlyClaim(t, f, u, f, snapshot[i].id)
    requires forall k :: 0 <= k < i ==> snapshot[k].id != snapshot[i].id
    requires forall k :: 0 <= k < i ==> snapshot[k].id in t.claims && Settled(t, f, snapshot[k].id)
    ensures forall k :: 0 <= k < i ==> snapshot[k].id in u.claims && Settled(u, f, snapshot[k].id)
  {
    hide Settled, OnlyClaim, Schema;
    forall k | 0 <= k < i ensures snapshot[k].id in u.claims && Settled(u, f, snapshot[k].id) {
      SettledFrame(t, f, u, snapshot[i].id, snapshot[k].id);
    }
  }

  lemma SnapshotShape(w: World)
    requires Sound(w) && w.core.worker.Busy?
    ensures Schema(w.core.tables)
    ensures var p := w.core.worker.pass;
            && (forall j, k :: 0 <= j < k < |p.snapshot| ==> p.snapshot[j].id != p.snapshot[k].id)
            && (!w.core.worker.point.Scan? ==> p.i < |p.snapshot|)
  {
    hide Backed, PassBacked, PointBacked, Agrees;
  }

  lemma PersistOnTrack(w: World, w': World)
    requires Sound(w) && Fresh(w) && OnTrack(w) && WorldStep(w, Of(DoPersist), w')
    ensures Outcome(w')
  {
    hide Sound, Fresh, SetCondition, Settled, Schema, OnlyClaim;
    SoundHasSchema(w);
    CurrentClaim(w);
    CurrentCopy(w);
    var t, u, claim := w.core.tables, w'.core.tables, w.core.worker.point.claim;
    SaveStatusKeepsSchema(t, claim);
    if w.core.worker.point.result == Idle {
      SnapshotShape(w);
      PersistChangesOne(t, w.fake, claim);
      PrefixStaysSettled(t, u, w.fake, w.core.worker.pass.snapshot, w.core.worker.pass.i);
      SettledOwner(u, w.fake, claim.hostId.value, claim.id);
      DueStays(t, u, w.fake, claim.id, claim.hostId.value, w.core.worker.pass.now);
    }
  }

  lemma SelectOnTrack(w: World, selected: Selected, w': World)
    requires Sound(w) && Fresh(w) && OnTrack(w) && WorldStep(w, Of(DoSelect(selected)), w')
    ensures Outcome(w')
  {
    hide Backed, PassBacked, PointBacked, TablesOk, SetCondition, FreshPass, SelectPlan, T.MarkUnsatisfiable,
         T.ShowsUnsatisfiable, T.ScheduleClaimError;
    CurrentClaim(w);
    SelectedSpecIsStorable(w.core);
    var claim := w.core.worker.point.claim;
    NothingSelected(w.fake.plans, claim.row.spec);
    T.MarkUnsatisfiableSettles(claim, w.core.clock);
  }

  lemma EnsureOnTrack(w: World, newHost: HostId, w': World)
    requires Sound(w) && Fresh(w) && OnTrack(w) && WorldStep(w, Of(DoEnsure(newHost)), w')
    ensures Outcome(w')
  {
    hide SetCondition, EnsureHost, RowBacked, Backed, PassBacked, PassOk, TablesOk, Schema;
    CurrentClaim(w);
    SafeHasSchema(w.core);
    EnsuredIsFeasible(w);
    var c, claim, plan := w.core, w.core.worker.point.claim, w.core.worker.point.plan;
    EnsureSucceeds(c.tables, claim, plan, newHost, c.clock);
  }

  lemma FinalizeOnTrack(w: World, w': World)
    requires Sound(w) && OnTrack(w) && WorldStep(w, Of(DoFinalize), w')
    ensures Outcome(w')
  {
    hide Backed, PassBacked, PointBacked, SetCondition;
    FinalizeKeepsSafe(w.core);
  }

  lemma CallOnTrack(w: World, a: Action, w': World)
    requires Sound(w) && OnTrack(w) && WorldStep(w, Of(a), w')
    requires a.DoCreate? || a.DoDelete? || a.RpcWake? || a.Tick? || a.Resume? || a.WakeSelf? || a.List?
    ensures Outcome(w')
  {
    hide Sound, SetCondition, CreateResource, DeleteResource, OnCreation, OnDeletion, Settled;
    if a.DoCreate? {
      var host := w.core.worker.point.host;
      CreateCasesKeepPlans(w.fake, host.id, host.row.planId, a.resourceId);
    }
    if a.DoDelete? { DeleteAnswers(w.fake, w.core.worker.point.host.id); }
    SettledIgnoresFaults(w.core.tables, w.fake, w'.fake);
  }

  lemma CreateCasesKeepPlans(f: FakeDb, h: HostId, planId: PlanId, newId: ResourceId)
    ensures CreateResource(f, h, planId, newId).db.plans == f.plans
  {}

  lemma StepOnTrack(w: World, a: WorldAction, w': World)
    requires Sound(w) && Fresh(w) && OnTrack(w) && WorldStep(w, a, w') && Quiet(a)
    ensures Outcome(w')
  {
    hide Sound, WorldStep, Fresh, OnTrack, Outcome;
    var action := a.action;
    match action
    case ScanNext => ScanOnTrack(w, w');
    case DoFetch => FetchOnTrack(w, w');
    case DoObserve(obs) => ObserveOnTrack(w, obs, w');
    case DoSave => SaveOnTrack(w, w');
    case DoPersist => PersistOnTrack(w, w');
    case DoFinalize => FinalizeOnTrack(w, w');
    case DoSelect(selected) => SelectOnTrack(w, selected, w');
    case DoEnsure(h) => EnsureOnTrack(w, h, w');
    case _ => CallOnTrack(w, action, w');
  }

  lemma ListOnTrack(w: World, s: seq<ClaimRecord>, w': World)
    requires Sound(w) && WorldStep(w, Of(List(s)), w') && AllDue(w.core.tables, w.fake, w.core.worker.now)
    ensures OnTrack(w')
  {
    hide Backed, TablesOk;
    var t := w.core.tables;
    forall k | 0 <= k < |s| ensures s[k].id in t.claims {}
  }

  /** `ws[0]` lists, every state in between is inside that one pass, and nothing disturbs it. */
  ghost predicate OnePass(ws: seq<World>, actions: seq<WorldAction>) {
    && QuietRun(ws, actions) && |actions| > 0
    && ws[0].core.worker.Listing? && actions[0].Of? && actions[0].action.List?
    && forall k :: 1 <= k < |actions| ==> ws[k].core.worker.Busy?
  }

  lemma {:induction false} PassStaysOnTrack(ws: seq<World>, actions: seq<WorldAction>)
    requires OnePass(ws, actions) && Sound(ws[0]) && AllDue(ws[0].core.tables, ws[0].fake, ws[0].core.worker.now)
    ensures Sound(ws[|actions|]) && Fresh(ws[|actions|]) && Outcome(ws[|actions|])
  {
    hide Sound, WorldStep, Fresh, OnTrack, Quiet, AllDue;
    var n := |actions| - 1;
    WorldFacts(ws, actions, n);
    if n == 0 {
      ListOnTrack(ws[0], actions[0].action.snapshot, ws[1]);
      WorldStepKeepsSound(ws[0], actions[0], ws[1]);
      ListIsFresh(ws[0], actions[0].action.snapshot, ws[1]);
      assert ws[1].core.worker.Busy?;
    } else {
      var before := ws[..n + 1];
      assert before[n] == ws[n] && before[0] == ws[0];
      assert OnePass(before, actions[..n]);
      PassStaysOnTrack(before, actions[..n]);
      WorldStepKeepsSound(ws[n], actions[n], ws[n + 1]);
      QuietKeepsFresh(ws[n], actions[n], ws[n + 1]);
      StepOnTrack(ws[n], actions[n], ws[n + 1]);
    }
  }

  lemma WorldFacts(ws: seq<World>, actions: seq<WorldAction>, n: nat)
    requires QuietRun(ws, actions) && n < |actions|
    ensures WorldStep(ws[n], actions[n], ws[n + 1]) && Quiet(actions[n])
    ensures actions[n].Of? && actions[n].action.List? ==> ws[n + 1].core.worker.Busy?
  {}

  /** Idle is a true fixpoint: an undisturbed pass that starts with every retry
      due either reports progress or leaves nothing to do. */
  lemma IdleMeansConverged(ws: seq<World>, actions: seq<WorldAction>)
    requires OnePass(ws, actions) && Sound(ws[0]) && AllDue(ws[0].core.tables, ws[0].fake, ws[0].core.worker.now)
    requires !ws[|actions|].core.worker.Busy?
    ensures var w := ws[|actions|];
            || EndsWith(w.core, Finished(Progress))
            || (EndsWith(w.core, Finished(Idle)) && Converged(w.core.tables, w.fake))
  {
    hide Sound, WorldStep, AllDue, Converged;
    PassStaysOnTrack(ws, actions);
  }
}
