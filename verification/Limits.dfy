/** Two things the controller does not promise, each with its proof. */
module Limits {
  import opened Wrappers
  import opened Domain
  import opened Provider
  import opened Tables
  import opened Protocol
  import opened Invariants
  import opened Guarantees
  import opened Theorems

  /** Attempts do not add up over failed creates or deletes: in every run, the host
      row stored after one says attempt 1, however many failed before. */
  lemma FailedMutationsCountOnce(cs: seq<Core>, actions: seq<Action>, k: nat)
    requires Run(cs, actions) && Init(cs[0]) && k < |actions|
    requires || (actions[k].DoCreate? && actions[k].creation.Err? && actions[k].creation.error.Transient?)
             || (actions[k].DoDelete? && actions[k].deletion.Err?)
    ensures var c := cs[k + 1];
            c.worker.Busy? && c.worker.point.Save? && c.worker.point.host.row.retry.attempt == 1
  {
    hide AllGuarded, TailOk, WakeOk, TablesOk, PassOk, SetCondition, RetryDeadline;
    RunsAreGood(cs, actions, k);
    assert Step(cs[k], actions[k], cs[k + 1]);
  }

  /* ---------- a create for a released claim ---------- */

  /** The worker is inside a pass over this one claim, before either loop. */
  predicate AtPassStart(c: Core, claim: ClaimRecord) {
    && c.worker.Busy? && c.worker.point.Scan?
    && !c.worker.pass.live && c.worker.pass.i == 0 && c.worker.pass.snapshot == [claim]
  }

  lemma SingleListing(t: Tables, id: HostClaimId)
    requires t.claims.Keys == {id}
    ensures IsListing(t, [RecordOf(t, id)])
  {
    assert id in t.claims;
    forall c | c in t.claims ensures RecordOf(t, c) in [RecordOf(t, id)] {
      assert c in t.claims.Keys;
    }
  }

  /** Three scans take a pass over one live claim to that claim in the live loop. */
  lemma ScanToClaim(c: Core, claim: ClaimRecord) returns (cs: seq<Core>)
    requires AtPassStart(c, claim) && !Released(claim.row) && claim.row.retry == NO_RETRY
    ensures cs == [c, AfterScan(c), AfterScan(AfterScan(c)), AfterScan(AfterScan(AfterScan(c)))]
    ensures Run(cs, [ScanNext, ScanNext, ScanNext])
    ensures cs[3] == c.(worker := cs[3].worker) && cs[3].worker.Busy? && cs[3].worker.pass.live
    ensures cs[3].worker.used == c.worker.used
    ensures cs[3].worker.point == (if claim.hostId.Some? then Fetch(claim) else Select(claim))
  {
    var c1 := AfterScan(c);
    var c2 := AfterScan(c1);
    cs := [c, c1, c2, AfterScan(c2)];
  }

  lemma JoinRuns(cs: seq<Core>, actions: seq<Action>, ds: seq<Core>, more: seq<Action>)
    requires Run(cs, actions) && Run(ds, more) && ds[0] == cs[|actions|]
    ensures Run(cs + ds[1..], actions + more)
    ensures (cs + ds[1..])[|actions| + |more|] == ds[|more|] && (cs + ds[1..])[0] == cs[0]
  {
    hide Step;
    var es, all := cs + ds[1..], actions + more;
    forall k | 0 <= k < |all| ensures Step(es[k], all[k], es[k + 1]) {
      if k < |actions| {
        assert es[k] == cs[k] && es[k + 1] == cs[k + 1] && all[k] == actions[k];
      } else {
        assert es[k] == ds[k - |actions|] && es[k + 1] == ds[k - |actions| + 1] && all[k] == more[k - |actions|];
      }
    }
  }

  /** Listing, and on to the one live claim there is. */
  lemma ListToClaim(c: Core, id: HostClaimId) returns (cs: seq<Core>, actions: seq<Action>)
    requires c.worker.Listing? && c.tables.claims.Keys == {id}
    requires !Released(c.tables.claims[id]) && c.tables.claims[id].retry == NO_RETRY
    ensures Run(cs, actions) && |actions| == 4 && cs[0] == c
    ensures var d, claim := cs[4], RecordOf(c.tables, id);
            && d == c.(worker := d.worker, listed := d.listed, log := d.log)
            && d.worker.Busy? && d.worker.pass.live && d.worker.used == c.worker.used
            && d.worker.point == (if claim.hostId.Some? then Fetch(claim) else Select(claim))
  {
    hide IsListing, RecordOf, AfterScan;
    var claim := RecordOf(c.tables, id);
    RecordIs(c.tables, id);
    SingleListing(c.tables, id);
    var c1 := AfterList(c, [claim]);
    var rest := ScanToClaim(c1, claim);
    assert Step(c, List([claim]), c1);
    JoinRuns([c, c1], [List([claim])], rest, [ScanNext, ScanNext, ScanNext]);
    cs, actions := [c, c1] + rest[1..], [List([claim])] + [ScanNext, ScanNext, ScanNext];
  }

  lemma RecordIs(t: Tables, id: HostClaimId)
    requires id in t.claims
    ensures var r := RecordOf(t, id); r.id == id && r.row == t.claims[id] && r.hostId == HostOf(t, id)
  {}

  /** A plan is selected and the claim bound to host 0. */
  lemma BindClaim(c: Core, claim: ClaimRecord, planId: PlanId) returns (cs: seq<Core>, actions: seq<Action>)
    requires c.worker.Busy? && c.worker.point == Select(claim) && c.worker.used == 0
    requires c.tables.hosts == map[] && c.tables.issued == {} && claim.id in c.tables.claims
    requires !Released(c.tables.claims[claim.id]) && Storable(c.tables.claims[claim.id].spec)
    requires c.tables.claims.Keys == {claim.id}
    ensures Run(cs, actions) && |actions| == 2 && cs[0] == c
    ensures var d := cs[2];
            && d.worker.Listing? && d.unwoken == c.unwoken
            && d.tables.claims.Keys == {claim.id} && d.tables.hosts.Keys == {0}
            && !Released(d.tables.claims[claim.id]) && d.tables.claims[claim.id].retry == NO_RETRY
            && d.tables.hosts[0] == InitialHost(claim.id, c.tables.claims[claim.id].spec, planId, c.clock)
  {
    hide SetCondition, InitialHost;
    var plan := Plan(planId, c.tables.claims[claim.id].spec);
    var c1 := AfterSelect(c, Ok(Some(plan)));
    var c2 := AfterEnsure(c1, 0);
    NoHostYet(c.tables, claim.id);
    cs, actions := [c, c1, c2], [DoSelect(Ok(Some(plan))), DoEnsure(0)];
    assert Step(c, actions[0], c1) && Step(c1, actions[1], c2);
  }

  lemma NoHostYet(t: Tables, id: HostClaimId)
    requires t.hosts == map[]
    ensures HostOf(t, id) == None
  {}

  /** The pending host is looked up and has no resource: the intent is to be saved. */
  lemma LookUpPending(c: Core, claim: ClaimRecord) returns (cs: seq<Core>, actions: seq<Action>)
    requires c.worker.Busy? && c.worker.point == Fetch(claim) && claim.hostId == Some(0) && c.worker.pass.live
    requires 0 in c.tables.hosts && c.tables.hosts[0].phase == HostPhase.Pending
    requires c.tables.hosts[0].resourceId.None? && c.tables.hosts[0].retry == NO_RETRY
    ensures Run(cs, actions) && |actions| == 2 && cs[0] == c
    ensures var d, row := cs[2], c.tables.hosts[0].(phase := HostPhase.Provisioning);
            && d.tables == c.tables && d.worker.Busy?
            && d.worker.point == Save(claim, HostRecord(0, row), ThenCreate)
  {
    var c1 := AfterFetch(c);
    assert c1.worker.point == Observe(claim, HostRecord(0, c.tables.hosts[0]));
    var c2 := AfterObserve(c1, Ok(Absent));
    cs, actions := [c, c1, c2], [DoFetch, DoObserve(Ok(Absent))];
    assert Step(c, DoFetch, c1) && Step(c1, actions[1], c2);
  }

  predicate LastCreateIsLate(log: seq<Event>) {
    && |log| > 0 && log[|log| - 1].CreateCalled?
    && var t, h := log[|log| - 1].durable, log[|log| - 1].host;
       h in t.hosts && t.hosts[h].claimId in t.claims && Released(t.claims[t.hosts[h].claimId])
  }

  /** The claim is released, the intent saved, and the create goes out. */
  lemma CreateLate(c: Core, claim: ClaimRecord, host: HostRecord) returns (cs: seq<Core>, actions: seq<Action>)
    requires c.worker.Busy? && c.worker.point == Save(claim, host, ThenCreate) && host.row.resourceId.None?
    requires host.id in c.tables.hosts && c.tables.hosts[host.id].claimId == claim.id
    requires claim.id in c.tables.claims && !Released(c.tables.claims[claim.id])
    ensures Run(cs, actions) && |actions| == 3 && cs[0] == c && LastCreateIsLate(cs[3].log)
  {
    hide SetCondition, RecordOf, HostOf, OnCreation;
    var lost: Creation := Ok(CreateOutcome.OutcomeUnknown);
    var c1 := AfterRpcDelete(c, claim.id);
    var c2 := AfterSaving(c1);
    var c3 := AfterCreate(c2, lost);
    cs, actions := [c, c1, c2, c3], [RpcDelete(claim.id), DoSave, DoCreate(lost, 0)];
    assert Step(c, actions[0], c1) && Step(c1, DoSave, c2) && Step(c2, actions[2], c3);
  }

  /** A create may be issued for a claim that is already released: this run does,
      when the release commits while the step is under way. */
  lemma CreateAfterRelease(spec: HostResources, planId: PlanId) returns (cs: seq<Core>, actions: seq<Action>)
    requires Storable(spec)
    ensures Run(cs, actions) && Init(cs[0]) && LastCreateIsLate(cs[|actions|].log)
  {
    hide SetCondition, RecordOf, HostOf, AfterFetch, AfterObserve, AfterSaving, AfterEnsure, AfterSelect, AfterScan;
    var c0 := Core(EMPTY, 0, Down, false, 0, {}, 0, NoDrainYet, []);
    var c1 := c0.(worker := Parked, permit := true);
    var c2 := AfterRpcCreate(c1, 7, spec);
    var c3 := c2.(worker := Listing(0, 0), permit := false);
    cs, actions := [c0, c1, c2, c3], [Restart, RpcCreate(7, spec), Resume];
    assert Step(c0, Restart, c1) && Step(c1, actions[1], c2) && Step(c2, Resume, c3);
    var ds, more := ListToClaim(c3, 7);
    RecordIs(c3.tables, 7);
    NoHostYet(c3.tables, 7);
    JoinRuns(cs, actions, ds, more);
    cs, actions := cs + ds[1..], actions + more;
    ds, more := BindClaim(ds[4], RecordOf(c3.tables, 7), planId);
    JoinRuns(cs, actions, ds, more);
    cs, actions := cs + ds[1..], actions + more;
    var bound := ds[2];
    ds, more := ListToClaim(bound, 7);
    RecordIs(bound.tables, 7);
    OneHost(bound.tables, 7);
    JoinRuns(cs, actions, ds, more);
    cs, actions := cs + ds[1..], actions + more;
    ds, more := LookUpPending(ds[4], RecordOf(bound.tables, 7));
    JoinRuns(cs, actions, ds, more);
    cs, actions := cs + ds[1..], actions + more;
    var host := ds[2].worker.point.host;
    ds, more := CreateLate(ds[2], RecordOf(bound.tables, 7), host);
    JoinRuns(cs, actions, ds, more);
    cs, actions := cs + ds[1..], actions + more;
  }

  lemma OneHost(t: Tables, id: HostClaimId)
    requires t.hosts.Keys == {0} && t.hosts[0].claimId == id
    ensures HostOf(t, id) == Some(0)
  {
    assert Owns(t, 0, id);
  }
}
