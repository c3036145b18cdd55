/** The guarantees of the controller together with the fake provider, over whole
    runs from an empty database and an empty provider. */
module FakeTheorems {
  import opened Wrappers
  import opened Domain
  import opened Provider
  import opened Tables
  import opened Protocol
  import opened Invariants
  import opened Guarantees
  import opened Fake
  import opened FakeSystem
  import opened FailedHosts
  import opened Convergence
  import opened Quiescence
  import opened Order
  import opened Passes
  import opened Liveness
  import opened Stability
  import opened Status
  import opened StatusSteps
  import opened StatusTheorems

  lemma InitIsSound(w: World)
    requires WorldInit(w)
    ensures Sound(w)
  {}

  lemma {:induction false} RunsAreSound(ws: seq<World>, actions: seq<WorldAction>, k: nat)
    requires WorldRun(ws, actions) && WorldInit(ws[0]) && k <= |actions|
    ensures Sound(ws[k])
  {
    hide Sound, WorldStep;
    if k == 0 {
      InitIsSound(ws[0]);
    } else {
      RunsAreSound(ws, actions, k - 1);
      WorldStepKeepsSound(ws[k - 1], actions[k - 1], ws[k]);
    }
  }

  /** No leaked resource: in every reachable state each provider resource belongs
      to a stored host whose claim still exists, and carries the plan of its row. */
  lemma NoLeakedResource(ws: seq<World>, actions: seq<WorldAction>, k: nat, h: HostId)
    requires WorldRun(ws, actions) && WorldInit(ws[0]) && k <= |actions| && h in ws[k].fake.resources
    ensures var t := ws[k].core.tables;
            && h in t.hosts && t.hosts[h].claimId in t.claims
            && t.hosts[h].planId == ws[k].fake.resources[h].planId
  {
    RunsAreSound(ws, actions, k);
  }

  /** Ready never lies: a stored claim that says Ready=True is not released and is
      bound to a Ready host whose recorded resource exists at the provider. */
  lemma ReadyNeverLies(ws: seq<World>, actions: seq<WorldAction>, k: nat, id: HostClaimId)
    requires WorldRun(ws, actions) && WorldInit(ws[0]) && k <= |actions|
    requires id in ws[k].core.tables.claims && ReadyIs(ws[k].core.tables.claims[id].conditions, True)
    ensures var t, f := ws[k].core.tables, ws[k].fake;
            && !Released(t.claims[id])
            && HostOf(t, id).Some?
            && var h := HostOf(t, id).value;
               && t.hosts[h].phase == HostPhase.Ready
               && h in f.resources && t.hosts[h].resourceId == Some(f.resources[h].id)
  {
    hide WorldStep, WorkerOk, PassBacked, PointBacked;
    RunsAreSound(ws, actions, k);
    var t := ws[k].core.tables;
    var h :| Owns(t, h, id) && t.hosts[h].phase == HostPhase.Ready;
    HostOfIs(t, h);
  }

  /** What holds against an arbitrary provider holds against the fake one. */
  lemma {:induction false} WorldRunsTell(ws: seq<World>, actions: seq<WorldAction>, k: nat)
    requires WorldRun(ws, actions) && WorldInit(ws[0]) && k <= |actions|
    ensures AllTells(ws[k].core)
  {
    hide Sound, Safe, AllTells, Step, Answers, FailsAnyhow;
    if k == 0 {
      InitTells(ws[0].core);
    } else {
      WorldRunsTell(ws, actions, k - 1);
      RunsAreSound(ws, actions, k - 1);
      SoundIsSafe(ws[k - 1]);
      assert WorldStep(ws[k - 1], actions[k - 1], ws[k]);
      if !actions[k - 1].InjectFault? {
        StepKeepsTells(ws[k - 1].core, actions[k - 1].action, ws[k].core);
      }
    }
  }

  /** A host's Ready never lies either: a live claim's host that says Ready=True is in
      phase Ready and its recorded resource exists; and a host in phase Ready whose
      retry is not pending says Ready=True. */
  lemma HostReadyNeverLies(ws: seq<World>, actions: seq<WorldAction>, k: nat, h: HostId)
    requires WorldRun(ws, actions) && WorldInit(ws[0]) && k <= |actions| && h in ws[k].core.tables.hosts
    ensures var t, f, row := ws[k].core.tables, ws[k].fake, ws[k].core.tables.hosts[h];
            && row.claimId in t.claims
            && (ReadyIs(row.conditions, True) && !Released(t.claims[row.claimId]) ==>
                  && row.phase == HostPhase.Ready && h in f.resources && row.resourceId == Some(f.resources[h].id))
            && (row.phase == HostPhase.Ready && row.retry.nextReconcileAt.None? ==> ReadyIs(row.conditions, True))
  {
    hide WorldStep, WorldInit, Lookup, ClaimTells, HostTells;
    RowsMatchProvider(ws, actions, k, h);
    WorldRunsTell(ws, actions, k);
    assert HostRowTells(ws[k].core.tables, h, ws[k].core.clock);
    HostTellsReady(ws[k].core.tables, h, ws[k].core.clock);
  }

  lemma HostTellsReady(t: Tables, h: HostId, clock: Timestamp)
    requires h in t.hosts && HostRowTells(t, h, clock)
    ensures var row := t.hosts[h];
            && (ReadyIs(row.conditions, True) && !Released(t.claims[row.claimId]) ==>
                  row.phase == HostPhase.Ready && row.resourceId.Some?)
            && (row.phase == HostPhase.Ready && row.retry.nextReconcileAt.None? ==> ReadyIs(row.conditions, True))
  {
    hide Lookup;
  }

  /** Write-ahead intent and identity agreement: a Pending or Failed host has no
      provider resource, and a recorded ID is the ID of the resource there is. */
  lemma RowsMatchProvider(ws: seq<World>, actions: seq<WorldAction>, k: nat, h: HostId)
    requires WorldRun(ws, actions) && WorldInit(ws[0]) && k <= |actions| && h in ws[k].core.tables.hosts
    ensures var row, f := ws[k].core.tables.hosts[h], ws[k].fake;
            && (row.phase == HostPhase.Pending || row.phase == HostPhase.Failed ==> h !in f.resources)
            && (row.phase == HostPhase.Ready ==> h in f.resources && row.resourceId.Some?)
            && (h in f.resources && row.resourceId.Some? ==> row.resourceId.value == f.resources[h].id)
  {
    hide WorldStep, WorkerOk, PassBacked, PointBacked;
    RunsAreSound(ws, actions, k);
    BackedRow(ws[k].core.tables, ws[k].fake, h);
  }

  /** The resources a claim got meet its spec in all three components and come
      from an enabled plan of the catalogue. */
  lemma HostsMeetTheirClaims(ws: seq<World>, actions: seq<WorldAction>, k: nat, h: HostId)
    requires WorldRun(ws, actions) && WorldInit(ws[0]) && k <= |actions| && h in ws[k].core.tables.hosts
    ensures var t := ws[k].core.tables;
            && t.hosts[h].claimId in t.claims
            && t.hosts[h].resources.Meets(t.claims[t.hosts[h].claimId].spec)
            && Offers(ws[k].fake, t.hosts[h].planId)
  {
    hide WorldStep, WorkerOk, PassBacked, PointBacked, RowBacked;
    RunsAreSound(ws, actions, k);
    var t := ws[k].core.tables;
    assert Assigned(t.hosts[h], t.claims[t.hosts[h].claimId].spec, ws[k].fake.plans);
  }

  /** Rediscovery never makes a second resource: in no reachable state does the
      worker create for a host that already has one. */
  lemma NoSecondResource(ws: seq<World>, actions: seq<WorldAction>, k: nat)
    requires WorldRun(ws, actions) && WorldInit(ws[0]) && k <= |actions|
    requires ws[k].core.worker.Busy? && ws[k].core.worker.point.Create?
    ensures ws[k].core.worker.point.host.id !in ws[k].fake.resources
  {
    hide WorldStep, Safe, Backed, PassBacked;
    RunsAreSound(ws, actions, k);
  }

  /** No observation ever contradicts a recorded ID, so both arms that report
      ProviderOwnershipConflict are dead with this provider. */
  lemma NoOwnershipConflict(ws: seq<World>, actions: seq<WorldAction>, k: nat, obs: Observed)
    requires WorldRun(ws, actions) && WorldInit(ws[0]) && k < |actions| && actions[k] == Of(DoObserve(obs))
    requires ws[k].core.worker.Busy? && ws[k].core.worker.point.Observe?
    ensures var recorded := ws[k].core.worker.point.host.row.resourceId;
            obs.Ok? && obs.value.Present? && recorded.Some? ==> recorded.value == obs.value.resource.id
  {
    hide Sound;
    RunsAreSound(ws, actions, k);
    ObservedIdAgrees(ws[k], obs, ws[k + 1].fake);
  }

  lemma {:induction false} RunsAreInOrder(ws: seq<World>, actions: seq<WorldAction>, k: nat)
    requires WorldRun(ws, actions) && WorldInit(ws[0]) && k <= |actions|
    ensures InOrder(ws[k])
  {
    hide Sound, WorldStep, InOrder;
    if k == 0 {
      assert InOrder(ws[0]) by { NotBusyIsInOrder(ws[0]); }
    } else {
      RunsAreSound(ws, actions, k - 1);
      RunsAreInOrder(ws, actions, k - 1);
      StepKeepsOrder(ws[k - 1], actions[k - 1], ws[k]);
    }
  }

  lemma NotBusyIsInOrder(w: World)
    requires !w.core.worker.Busy?
    ensures InOrder(w)
  {}

  /** Stable order: in every reachable state, under any interference, no claim
      before the one the worker is at, in (created_at, id) order and in the same
      loop, is one it could report progress for.  So the claim that makes a pass
      report progress is the first in its loop that can. */
  lemma EarlierClaimsCannotProgress(ws: seq<World>, actions: seq<WorldAction>, k: nat, n: nat)
    requires WorldRun(ws, actions) && WorldInit(ws[0]) && k <= |actions|
    requires ws[k].core.worker.Busy? && n < |ws[k].core.worker.pass.snapshot| && n < ws[k].core.worker.pass.i
    ensures var t, p := ws[k].core.tables, ws[k].core.worker.pass;
            var r := p.snapshot[n];
            && (p.live ==> CannotProgress(t, ws[k].fake, r.id, p.now))
            && (Released(r.row) ==>
                  r.hostId.Some? && Owns(t, r.hostId.value, r.id) && !t.hosts[r.hostId.value].retry.IsDue(p.now))
  {
    hide WorldStep, Backed, PassBacked, PointBacked, TablesOk, CannotProgress, RowsCurrent;
    RunsAreSound(ws, actions, k);
    RunsAreInOrder(ws, actions, k);
    assert Agrees(ws[k].core.tables, ws[k].core.worker.pass.snapshot[n]);
  }

  /** Bounded convergence over reachable states: from any pass boundary, with N
      claims and F remaining faults, an undisturbed stretch of any length and
      with any clock has at most 2N + 2F passes that report progress. */
  lemma ConvergenceIsBounded(ws: seq<World>, actions: seq<WorldAction>, m: nat)
    requires WorldRun(ws, actions) && WorldInit(ws[0]) && m <= |actions| && !ws[m].core.worker.Busy?
    requires forall k :: m <= k < |actions| ==> Quiet(actions[k])
    ensures ProgressCount(ws[|actions|].core.log)
         <= ProgressCount(ws[m].core.log) + 2 * |ws[m].core.tables.claims| + 2 * ws[m].fake.faults.Total()
  {
    hide Sound, WorldStep, ProgressCount;
    RunsAreSound(ws, actions, m);
    QuietSuffix(ws, actions, m);
    ProgressIsBounded(ws[m..], actions[m..]);
  }

  /** Always converges, over reachable states: an undisturbed stretch from any
      reachable state, with any clock, in which more than 2N + 2F passes list when
      no retry is pending goes through a state in which nothing is left to do. */
  lemma ConvergenceIsReachedFrom(ws: seq<World>, actions: seq<WorldAction>, m: nat)
    requires WorldRun(ws, actions) && WorldInit(ws[0]) && m <= |actions|
    requires forall k :: m <= k < |actions| ==> Quiet(actions[k])
    requires DueLists(ws[m..], actions[m..], |actions| - m)
           > 2 * |ws[m].core.tables.claims| + 2 * ws[m].fake.faults.Total()
             + (if ws[m].core.worker.Busy? then 1 else 0) + (if ws[|actions|].core.worker.Busy? then 1 else 0)
    ensures exists k :: m <= k <= |actions| && Converged(ws[k].core.tables, ws[k].fake)
  {
    hide Sound, WorldStep, Converged, DueLists;
    RunsAreSound(ws, actions, m);
    QuietSuffix(ws, actions, m);
    ConvergenceIsReached(ws[m..], actions[m..]);
    var k :| 0 <= k <= |actions| - m && Converged(ws[m..][k].core.tables, ws[m..][k].fake);
    assert ws[m..][k] == ws[m + k];
  }

  /** And it is always possible: from every reachable state of a running process
      some undisturbed continuation ends with nothing left to do. */
  lemma ConvergenceIsPossibleFrom(ws: seq<World>, actions: seq<WorldAction>, m: nat)
    returns (more: seq<World>, steps: seq<WorldAction>)
    requires WorldRun(ws, actions) && WorldInit(ws[0]) && m <= |actions| && ws[m].core.worker != Down
    ensures QuietRun(more, steps) && more[0] == ws[m]
    ensures Converged(more[|steps|].core.tables, more[|steps|].fake)
  {
    hide Sound, WorldStep, Converged, Quiet;
    RunsAreSound(ws, actions, m);
    more, steps := CanConverge(ws[m]);
  }

  /** And stays so: from a reachable converged state with no faults left, an
      undisturbed stretch has only idle passes, and is converged between them. */
  lemma ConvergedStaysConverged(ws: seq<World>, actions: seq<WorldAction>, m: nat)
    requires WorldRun(ws, actions) && WorldInit(ws[0]) && m <= |actions| && !ws[m].core.worker.Busy?
    requires forall k :: m <= k < |actions| ==> Quiet(actions[k])
    requires Converged(ws[m].core.tables, ws[m].fake) && ws[m].fake.faults.Total() == 0
    ensures ProgressCount(ws[|actions|].core.log) == ProgressCount(ws[m].core.log)
    ensures NoAbortSince(ws[m].core.log, ws[|actions|].core.log)
    ensures !ws[|actions|].core.worker.Busy? ==> Converged(ws[|actions|].core.tables, ws[|actions|].fake)
  {
    hide Sound, WorldStep, Converged, ProgressCount, NoAbortSince;
    RunsAreSound(ws, actions, m);
    QuietSuffix(ws, actions, m);
    ConvergedIsStable(ws[m..], actions[m..]);
  }

  lemma QuietSuffix(ws: seq<World>, actions: seq<WorldAction>, m: nat)
    requires WorldRun(ws, actions) && m <= |actions|
    requires forall k :: m <= k < |actions| ==> Quiet(actions[k])
    ensures QuietRun(ws[m..], actions[m..])
    ensures ws[m..][0] == ws[m] && ws[m..][|actions| - m] == ws[|actions|]
  {
    hide WorldStep, Quiet;
  }

  /** An idle pass over a reachable state: if every retry was due when it listed
      and nothing disturbed it, nothing is left to do. */
  lemma IdleIsAFixpoint(ws: seq<World>, actions: seq<WorldAction>, m: nat)
    requires WorldRun(ws, actions) && WorldInit(ws[0]) && m < |actions|
    requires OnePass(ws[m..], actions[m..]) && AllDue(ws[m].core.tables, ws[m].fake, ws[m].core.worker.now)
    requires !ws[|actions|].core.worker.Busy?
    ensures var w := ws[|actions|];
            || EndsWith(w.core, Finished(Progress))
            || (EndsWith(w.core, Finished(Idle)) && Converged(w.core.tables, w.fake))
  {
    hide Sound, WorldStep, Converged, AllDue;
    RunsAreSound(ws, actions, m);
    IdleMeansConverged(ws[m..], actions[m..]);
  }

  /** Failed does not block release, first half: from the moment a live claim's
      host is failed, through its release and as long as the claim's row lives,
      the host's row does not change and is due at any time, until a lookup of
      that host itself fails; so the deletion loop looks it up when it gets there. */
  lemma {:induction false} FailedStaysDue(ws: seq<World>, actions: seq<WorldAction>, i: nat, j: nat, h: HostId)
    requires WorldRun(ws, actions) && WorldInit(ws[0]) && i <= j <= |actions| && FailedAndLive(ws[i].core.tables, h)
    requires forall k :: i <= k <= j ==> ws[i].core.tables.hosts[h].claimId in ws[k].core.tables.claims
    requires forall k :: i <= k < j ==> !LookupFails(ws[k], actions[k], h)
    ensures var row := ws[i].core.tables.hosts[h];
            && FailedAtRest(ws[j], h, row)
            && (forall now :: row.retry.IsDue(now))
            && (var c := ws[j].core;
                At(c, DoFetch) && c.worker.point.claim.hostId == Some(h) && !c.worker.pass.live ==>
                  AfterFetch(c) == Goto(c, Observe(c.worker.point.claim, HostRecord(h, row))))
    decreases j - i
  {
    hide Sound, WorldStep, LookupFails, WorldInit;
    RunsAreSound(ws, actions, i);
    if i == j {
      FailedStartsAtRest(ws[i], h);
    } else {
      FailedStaysDue(ws, actions, i, j - 1, h);
      RunsAreSound(ws, actions, j - 1);
      RestIsKeptWhileFailed(ws[j - 1], actions[j - 1], ws[j], h, ws[i].core.tables.hosts[h]);
    }
  }

  /** Second half: the lookup of a failed host by the deletion loop, with no
      observation fault left, finds no resource, and the claim is then finalized. */
  lemma FailedCanBeReleased(ws: seq<World>, actions: seq<WorldAction>, k: nat, obs: Observed)
    requires WorldRun(ws, actions) && WorldInit(ws[0]) && k < |actions| && actions[k] == Of(DoObserve(obs))
    requires ws[k].core.worker.Busy? && ws[k].core.worker.point.Observe? && !ws[k].core.worker.pass.live
    requires ws[k].core.worker.point.host.row.phase == HostPhase.Failed && ws[k].fake.faults.observeTransient == 0
    ensures var claim, host := ws[k].core.worker.point.claim, ws[k].core.worker.point.host;
            var c := ws[k + 1].core;
            && obs == Ok(Absent)
            && c.worker.Busy? && c.worker.point == Finalize(claim)
            && FinalizeClaim(c.tables, claim.id).result.Ok?
            && host.id in c.tables.hosts && host.id !in FinalizeClaim(c.tables, claim.id).tables.hosts
  {
    hide Sound, WorldStep, FinalizeClaim;
    RunsAreSound(ws, actions, k);
    RunsAreSound(ws, actions, k + 1);
    assert WorldStep(ws[k], actions[k], ws[k + 1]);
    FailedIsFoundAbsent(ws[k], obs, ws[k + 1]);
    SoundIsSafe(ws[k + 1]);
    FinalizeKeepsSafe(ws[k + 1].core);
    FinalizeRemovesHost(ws[k].core.tables, ws[k].core.worker.point.claim.id, ws[k].core.worker.point.host.id);
  }
}
