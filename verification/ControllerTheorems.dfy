/** What the guarantees of the step machine say about the running objects. */
module ControllerTheorems {
  import opened Wrappers
  import opened Domain
  import opened Provider
  import opened Tables
  import opened Protocol
  import opened Invariants
  import opened Guarantees
  import opened Theorems
  import opened FakeSystem
  import opened FakeTheorems
  import opened Status
  import opened StatusTheorems
  import opened Controller

  /** The guarantees against an arbitrary provider hold against the fake one too. */
  lemma {:induction false} WorldRunsAreGood(ws: seq<World>, actions: seq<WorldAction>, k: nat)
    requires WorldRun(ws, actions) && WorldInit(ws[0]) && k <= |actions|
    ensures Good(ws[k].core)
  {
    hide Safe, AllGuarded, TailOk, WakeOk, Step, Answers, FailsAnyhow;
    if k == 0 {
      InitIsGood(ws[0].core);
    } else {
      WorldRunsAreGood(ws, actions, k - 1);
      assert WorldStep(ws[k - 1], actions[k - 1], ws[k]);
      if !actions[k - 1].InjectFault? {
        StepKeepsSafe(ws[k - 1].core, actions[k - 1].action, ws[k].core);
        StepKeepsGuards(ws[k - 1].core, actions[k - 1].action, ws[k].core);
        StepKeepsWake(ws[k - 1].core, actions[k - 1].action, ws[k].core);
      }
    }
  }

  /** Whatever interfered, no provider call the controller has made came too
      early and no pass of it missed a row. */
  lemma CallsAreGuarded(c: HostController, i: nat)
    requires c.Valid() && i < |c.log|
    ensures c.log[i].DeleteCalled? ==> DeleteGuarded(c.log, i)
    ensures c.log[i].CreateCalled? ==> CreateGuarded(c.log, i)
    ensures c.log[i].Finalized? ==> FinalizeGuarded(c.log, i)
    ensures c.log[i] != PassEnded(Aborted(NotFound))
  {
    hide WorldRun, WorldInit, Safe, TailOk, WakeOk, DeleteGuarded, CreateGuarded, FinalizeGuarded;
    WorldRunsAreGood(c.states, c.actions, |c.actions|);
    assert Guarded(c.log, i);
  }

  /** The two databases the controller works on never drift apart: no resource
      without a row, no Ready claim without its resource, no wrong ID on record. */
  lemma DatabasesAgree(c: HostController)
    requires c.Valid()
    ensures var t, f := c.storage.tables, c.provider.db;
            && (forall h :: h in f.resources ==>
                  h in t.hosts && t.hosts[h].claimId in t.claims && t.hosts[h].planId == f.resources[h].planId)
            && (forall id :: id in t.claims && ReadyIs(t.claims[id].conditions, True) ==>
                  && !Released(t.claims[id]) && HostOf(t, id).Some?
                  && var h := HostOf(t, id).value;
                     t.hosts[h].phase == HostPhase.Ready && h in f.resources
                         && t.hosts[h].resourceId == Some(f.resources[h].id))
            && (forall h :: h in t.hosts && h in f.resources && t.hosts[h].resourceId.Some? ==>
                  t.hosts[h].resourceId.value == f.resources[h].id)
  {
    hide WorldRun, WorldInit;
    var t, f, n := c.storage.tables, c.provider.db, |c.actions|;
    forall h | h in f.resources
      ensures h in t.hosts && t.hosts[h].claimId in t.claims && t.hosts[h].planId == f.resources[h].planId
    {
      NoLeakedResource(c.states, c.actions, n, h);
    }
    forall id | id in t.claims && ReadyIs(t.claims[id].conditions, True)
      ensures !Released(t.claims[id]) && HostOf(t, id).Some?
      ensures var h := HostOf(t, id).value;
              t.hosts[h].phase == HostPhase.Ready && h in f.resources
              && t.hosts[h].resourceId == Some(f.resources[h].id)
    {
      ReadyNeverLies(c.states, c.actions, n, id);
    }
    forall h | h in t.hosts && h in f.resources && t.hosts[h].resourceId.Some?
      ensures t.hosts[h].resourceId.value == f.resources[h].id
    {
      RowsMatchProvider(c.states, c.actions, n, h);
    }
  }

  /** At every moment the rows the controller has stored tell the truth, and each
      claim's Bound condition names its host exactly when it has one. */
  lemma RowsTell(c: HostController, id: HostClaimId)
    requires c.Valid() && id in c.storage.tables.claims
    ensures AllTells(c.Now().core)
    ensures var t := c.storage.tables;
            var row := t.claims[id];
            && (StatusIs(row.conditions, BOUND, True) <==> exists h :: Owns(t, h, id))
            && (forall h :: Owns(t, h, id) ==>
                  Shows(row.conditions, BOUND, True, HostAssigned, AssignedHost(h), row.generation))
  {
    hide WorldRun, WorldInit, AllGuarded, TailOk, WakeOk, AcceptedFits, ClaimReadyFits, ClaimRetryFits, GenerationFits,
         TimesFit, PassTells, PointTells, HostRowTells, Lookup, WorkerOk;
    WorldRunsTell(c.states, c.actions, |c.actions|);
    WorldRunsAreGood(c.states, c.actions, |c.actions|);
    var t := c.storage.tables;
    assert ClaimTells(RecordOf(t, id), c.Now().core.clock);
    forall h: HostId | Owns(t, h, id) ensures HostOf(t, id) == Some(h) { HostOfIs(t, h); }
    assert HostOf(t, id).Some? ==> Owns(t, HostOf(t, id).value, id);
  }

  /** A controller parked without a permit has answered every wake issued,
      unless the first listing of its last drain failed. */
  lemma ParkedHasAnswered(c: HostController, m: nat)
    requires c.Valid() && c.worker == Parked && !c.permit && c.lastDrain != ListingFailed(0)
    requires m < c.mutations && m !in c.unwoken
    ensures m < c.listed
    ensures c.lastDrain == BecameIdle || c.lastDrain == StoppedByError || c.lastDrain.ListingFailed?
  {
    hide WorldRun, WorldInit, Safe, AllGuarded, TailOk;
    WorldRunsAreGood(c.states, c.actions, |c.actions|);
    assert WillSee(c.Now().core, m);
  }
}
