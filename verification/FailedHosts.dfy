/** A failed host after the release of its claim. */
module FailedHosts {
  import opened Wrappers
  import opened Domain
  import opened Provider
  import opened Tables
  import opened Protocol
  import opened Invariants
  import opened Guarantees
  import opened Catalog
  import opened Fake
  import opened FakeSystem

  /** The host has failed, nothing is scheduled for it, and the worker handles it
      at most by looking it up for release. */
  ghost predicate FailedAtRest(w: World, h: HostId, row: HostRow) {
    && h in w.core.tables.hosts && w.core.tables.hosts[h] == row
    && row.phase == HostPhase.Failed && row.retry.nextReconcileAt.None?
    && (Handling(w.core) == Some(h) ==> w.core.worker.point.Observe? && !w.core.worker.pass.live)
  }

  /** The step is a lookup of this host that fails. */
  predicate LookupFails(w: World, a: WorldAction, h: HostId) {
    && !a.InjectFault? && a.action.DoObserve? && a.action.observed.Err?
    && Handling(w.core) == Some(h)
  }

  lemma FailedStartsAtRest(w: World, h: HostId)
    requires Sound(w) && FailedAndLive(w.core.tables, h)
    ensures FailedAtRest(w, h, w.core.tables.hosts[h])
  {
    hide Backed, PassBacked, PointBacked, WorkerOk;
    NeverHandlesFailed(w.core, h);
  }

  lemma FailedHasNoResource(w: World, h: HostId)
    requires Sound(w) && h in w.core.tables.hosts && w.core.tables.hosts[h].phase == HostPhase.Failed
    ensures h !in w.fake.resources
  {
    hide PassBacked, PointBacked, WorkerOk, Assigned, CatalogOk;
    BackedRow(w.core.tables, w.fake, h);
  }

  lemma FoundForRelease(w: World, a: WorldAction, obs: Observed, w': World, h: HostId, row: HostRow)
    requires Sound(w) && FailedAtRest(w, h, row) && WorldStep(w, a, w') && !LookupFails(w, a, h)
    requires a == Of(DoObserve(obs)) || a == ProviderFails(DoObserve(obs))
    ensures Handling(w'.core) != Some(h)
  {
    hide Sound, SetCondition, ObserveHost;
    FailedHasNoResource(w, h);
    ObserveCases(w.fake, w.core.worker.point.host.id);
  }

  lemma FetchedForRelease(c: Core, h: HostId, row: HostRow)
    requires At(c, DoFetch) && h in c.tables.hosts && c.tables.hosts[h] == row && row.phase == HostPhase.Failed
    ensures var c' := AfterFetch(c); Handling(c') == Some(h) ==> c'.worker.point.Observe? && !c'.worker.pass.live
  {}

  lemma RestIsKeptWhileFailed(w: World, a: WorldAction, w': World, h: HostId, row: HostRow)
    requires Sound(w) && FailedAtRest(w, h, row) && WorldStep(w, a, w') && !LookupFails(w, a, h)
    requires row.claimId in w'.core.tables.claims
    ensures FailedAtRest(w', h, row)
  {
    hide Sound, Step, Answers, FailsAnyhow, AfterFetch;
    if !a.InjectFault? {
      SoundIsSafe(w);
      SavesOnlyAtSave(w.core, a.action, w'.core);
      HostRowIsKept(w.core, a.action, w'.core, h, row);
      if a.action.DoObserve? {
        FoundForRelease(w, a, a.action.observed, w', h, row);
      } else if Handling(w'.core) == Some(h) {
        HandlingMoves(w.core, a.action, w'.core, h);
        if a.action.DoFetch? {
          FetchStep(w, a, w');
          FetchedForRelease(w.core, h, row);
        }
      }
    }
  }

  lemma SoundIsSafe(w: World)
    requires Sound(w)
    ensures Safe(w.core)
  {}

  lemma FetchStep(w: World, a: WorldAction, w': World)
    requires WorldStep(w, a, w') && !a.InjectFault? && a.action.DoFetch?
    ensures At(w.core, DoFetch) && w'.core == AfterFetch(w.core)
  {}

  /** The deletion loop looks a failed host up, and no observation fault is left. */
  lemma FailedIsFoundAbsent(w: World, obs: Observed, w': World)
    requires Sound(w) && WorldStep(w, Of(DoObserve(obs)), w') && !w.core.worker.pass.live
    requires w.core.worker.point.host.row.phase == HostPhase.Failed && w.fake.faults.observeTransient == 0
    ensures var claim, host := w.core.worker.point.claim, w.core.worker.point.host;
            && obs == Ok(Absent) && w'.core.tables == w.core.tables
            && At(w'.core, DoFinalize) && w'.core.worker.point == Finalize(claim)
            && claim.id in w.core.tables.claims && Owns(w.core.tables, host.id, claim.id)
  {
    hide Sound, Safe, RowBacked, Schema, ObserveHost, OnLiveObservation;
    var host := w.core.worker.point.host;
    SoundIsSafe(w);
    ObservedRowIsStored(w.core);
    CurrentHost(w);
    FailedHasNoResource(w, host.id);
    ObserveCases(w.fake, host.id);
  }

  lemma ObservedRowIsStored(c: Core)
    requires Safe(c) && c.worker.Busy? && c.worker.point.Observe?
    ensures var host := c.worker.point.host; host.id in c.tables.hosts && c.tables.hosts[host.id] == host.row
  {}

  lemma FinalizeRemovesHost(t: Tables, id: HostClaimId, h: HostId)
    requires id in t.claims && Owns(t, h, id)
    ensures h !in FinalizeClaim(t, id).tables.hosts
  {}
}
