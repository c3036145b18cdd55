/** A converged state is left alone: undisturbed and with no faults to come, it
    causes no progress report and every pass hands back a converged state. */
module Stability {
  import opened Domain
  import opened Tables
  import opened Protocol
  import opened Invariants
  import opened Catalog
  import opened Fake
  import opened FakeSystem
  import opened Convergence
  import opened Quiescence
  import opened Passes
  import T = Transitions

  /* ---------- nothing is owed ---------- */

  lemma SettledRankIsZero(t: Tables, f: FakeDb, id: HostClaimId)
    requires id in t.claims && Settled(t, f, id)
    ensures Rank(t, f, id) == 0
  {
    hide T.ShowsUnsatisfiable, Best, ReadyIs;
  }

  lemma {:induction false} SettledSumIsZero(t: Tables, f: FakeDb, ids: set<HostClaimId>)
    requires ids <= t.claims.Keys && forall id :: id in ids ==> Settled(t, f, id)
    ensures SumRank(t, f, ids) == 0
    decreases |ids|
  {
    hide Settled, Rank;
    if ids != {} {
      var id :| id in ids;
      SumSplit(t, f, ids, id);
      SettledRankIsZero(t, f, id);
      SettledSumIsZero(t, f, ids - {id});
    }
  }

  lemma ConvergedOwesNothing(w: World)
    requires Sound(w) && !w.core.worker.Busy? && Converged(w.core.tables, w.fake) && w.fake.faults.Total() == 0
    ensures Potential(w) == 0
  {
    hide Sound, Settled, SumRank;
    PotentialParked(w);
    SettledSumIsZero(w.core.tables, w.fake, w.core.tables.claims.Keys);
  }

  /** In a converged state no retry is pending, at any time. */
  lemma ConvergedIsDue(w: World, now: i64)
    requires Sound(w) && Converged(w.core.tables, w.fake)
    ensures AllDue(w.core.tables, w.fake, now)
  {
    hide PassBacked, PointBacked, WorkerOk, RowBacked, Assigned, ReadyIs, T.ShowsUnsatisfiable, Settled;
    var t := w.core.tables;
    forall h | h in t.hosts ensures t.hosts[h].retry.IsDue(now) {
      assert Owns(t, h, t.hosts[h].claimId);
      SettledOwner(t, w.fake, h, t.hosts[h].claimId);
    }
  }

  lemma SameProviderOutsidePasses(w: World, a: WorldAction, w': World)
    requires WorldStep(w, a, w') && Quiet(a) && !w.core.worker.Busy?
    ensures w'.fake == w.fake
  {
    hide Step;
  }

  /* ---------- a converged state stays so ---------- */

  /** Nothing is owed: between passes the state is converged, and inside one the
      pass has found nothing to do so far. */
  ghost predicate AtRest(w: World) {
    && Sound(w) && Fresh(w) && Potential(w) == 0
    && (if w.core.worker.Busy? then OnTrack(w) else Converged(w.core.tables, w.fake))
  }

  lemma RestIsKept(w: World, a: WorldAction, w': World)
    requires AtRest(w) && WorldStep(w, a, w') && Quiet(a)
    ensures AtRest(w') && ProgressCount(w'.core.log) == ProgressCount(w.core.log)
  {
    hide Sound, Fresh, Potential, OnTrack, Converged, Step, Answers, ProgressCount, AllDue;
    QuietIsOf(a);
    WorldStepKeepsSound(w, a, w');
    QuietKeepsFresh(w, a, w');
    QuietStepPays(w, a, w');
    EndIsLogged(w.core, a.action, w'.core);
    CountIsMonotone(w.core.log, w'.core.log);
    if w.core.worker.Busy? {
      StaysOnTrack(w, a, w');
      if !w'.core.worker.Busy? && EndsWith(w'.core, Finished(Progress)) {
        ReportIsCounted(w.core.log, w'.core.log);
      }
    } else {
      SameProviderOutsidePasses(w, a, w');
      if a.action.List? && w.core.worker.Listing? { ConvergedIsDue(w, w.core.worker.now); }
      StaysOnTrack(w, a, w');
    }
  }

  /** Idle is a fixpoint, the other way: from a converged state with no faults
      left, an undisturbed stretch of any length, with any clock, reports no
      progress, aborts no pass, and is converged whenever it is between passes. */
  lemma ConvergedIsStable(ws: seq<World>, actions: seq<WorldAction>)
    requires QuietRun(ws, actions) && Sound(ws[0]) && !ws[0].core.worker.Busy?
    requires Converged(ws[0].core.tables, ws[0].fake) && ws[0].fake.faults.Total() == 0
    ensures ProgressCount(ws[|actions|].core.log) == ProgressCount(ws[0].core.log)
    ensures NoAbortSince(ws[0].core.log, ws[|actions|].core.log)
    ensures !ws[|actions|].core.worker.Busy? ==> Converged(ws[|actions|].core.tables, ws[|actions|].fake)
  {
    hide Sound, WorldStep, Converged, Quiet, ProgressCount, AtRest, NoAbortSince, Potential, FreshPass;
    QuietRunDoesNotAbort(ws, actions);
    ConvergedOwesNothing(ws[0]);
    StartsAtRest(ws[0]);
    RestIsKeptThrough(ws, actions, |actions|);
    if !ws[|actions|].core.worker.Busy? { RestMeans(ws[|actions|]); }
  }

  lemma StartsAtRest(w: World)
    requires Sound(w) && !w.core.worker.Busy? && Converged(w.core.tables, w.fake) && Potential(w) == 0
    ensures AtRest(w)
  {
    hide Sound, Converged, Potential;
  }

  lemma RestMeans(w: World)
    requires AtRest(w) && !w.core.worker.Busy?
    ensures Converged(w.core.tables, w.fake)
  {
    hide Sound, Converged, Potential;
  }

  lemma {:induction false} RestIsKeptThrough(ws: seq<World>, actions: seq<WorldAction>, n: nat)
    requires QuietRun(ws, actions) && AtRest(ws[0]) && n <= |actions|
    ensures AtRest(ws[n]) && ProgressCount(ws[n].core.log) == ProgressCount(ws[0].core.log)
    decreases n
  {
    hide WorldStep, Quiet, ProgressCount, AtRest;
    if n > 0 {
      RestIsKeptThrough(ws, actions, n - 1);
      RestIsKept(ws[n - 1], actions[n - 1], ws[n]);
    }
  }
}
