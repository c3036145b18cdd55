/** How undisturbed passes end, and the progress bound from inside a pass. */
module Passes {
  import opened Domain
  import opened Tables
  import opened Protocol
  import opened Invariants
  import opened Steps
  import opened Fake
  import opened FakeSystem
  import opened Convergence
  import opened Quiescence
  import T = Transitions

  function PassCount(log: seq<Event>): nat {
    if log == [] then 0
    else PassCount(log[..|log| - 1]) + (if log[|log| - 1].PassEnded? then 1 else 0)
  }

  /** The later log extends the earlier one without an aborted pass. */
  predicate NoAbortSince(earlier: seq<Event>, later: seq<Event>) {
    && earlier <= later
    && forall i :: |earlier| <= i < |later| && later[i].PassEnded? ==> later[i].end.Finished?
  }

  lemma FetchDoesNotAbort(w: World, w': World)
    requires Sound(w) && WorldStep(w, Of(DoFetch), w')
    ensures NoAbortSince(w.core.log, w'.core.log)
  {
    hide Backed, PassBacked, PointBacked, SetCondition;
    FetchKeepsSafe(w.core);
  }

  lemma EnsureDoesNotAbort(w: World, h: HostId, w': World)
    requires Sound(w) && Fresh(w) && WorldStep(w, Of(DoEnsure(h)), w')
    ensures NoAbortSince(w.core.log, w'.core.log)
  {
    hide SetCondition, EnsureHost, RowBacked, Backed, PassBacked, PassOk, TablesOk, Schema;
    CurrentClaim(w);
    SafeHasSchema(w.core);
    EnsuredIsFeasible(w);
    var c := w.core;
    EnsureSucceeds(c.tables, c.worker.point.claim, c.worker.point.plan, h, c.clock);
  }

  lemma SaveDoesNotAbort(w: World, w': World)
    requires Sound(w) && WorldStep(w, Of(DoSave), w')
    ensures NoAbortSince(w.core.log, w'.core.log)
  {
    hide Sound, SaveHost, OnlyClaim, Schema;
    SaveWrites(w, w');
  }

  lemma FinalizeDoesNotAbort(w: World, w': World)
    requires Sound(w) && WorldStep(w, Of(DoFinalize), w')
    ensures NoAbortSince(w.core.log, w'.core.log)
  {
    hide Backed, PassBacked, PointBacked, Safe, FinalizeClaim;
    FinalizeKeepsSafe(w.core);
  }

  lemma OthersDoNotAbort(c: Core, a: Action, c': Core)
    requires Step(c, a, c') && Quiet(Of(a)) && !a.DoFetch? && !a.DoSave? && !a.DoFinalize? && !a.DoEnsure?
    ensures NoAbortSince(c.log, c'.log)
  {
    hide SetCondition, OnLiveObservation, OnDeletingObservation, OnCreation, OnDeletion, SaveClaimStatus,
         T.MarkUnsatisfiable, T.ScheduleClaimError, IsListing;
  }

  /** Undisturbed, no call of the worker fails: rows are found, the UNIQUE
      constraint is met and the claim to bind has not changed. */
  lemma QuietDoesNotAbort(w: World, a: WorldAction, w': World)
    requires Sound(w) && Fresh(w) && WorldStep(w, a, w') && Quiet(a)
    ensures NoAbortSince(w.core.log, w'.core.log)
  {
    hide Sound, Fresh, NoAbortSince, Quiet, Step, Answers;
    QuietIsOf(a);
    var action := a.action;
    match action
    case DoFetch => FetchDoesNotAbort(w, w');
    case DoSave => SaveDoesNotAbort(w, w');
    case DoFinalize => FinalizeDoesNotAbort(w, w');
    case DoEnsure(h) => EnsureDoesNotAbort(w, h, w');
    case _ => OthersDoNotAbort(w.core, action, w'.core);
  }

  lemma {:induction false} QuietRunDoesNotAbort(ws: seq<World>, actions: seq<WorldAction>)
    requires QuietRun(ws, actions) && Sound(ws[0]) && Fresh(ws[0])
    ensures NoAbortSince(ws[0].core.log, ws[|actions|].core.log)
  {
    hide Sound, WorldStep, Fresh, Quiet;
    if actions != [] {
      var n := |actions| - 1;
      var before := ws[..n + 1];
      assert before[n] == ws[n] && before[0] == ws[0];
      assert QuietRun(before, actions[..n]);
      QuietRunDoesNotAbort(before, actions[..n]);
      QuietRunPays(before, actions[..n]);
      QuietDoesNotAbort(ws[n], actions[n], ws[n + 1]);
    }
  }

  /** Where no pass was idle or aborted, the passes are the progress reports. */
  lemma {:induction false} OnlyProgressCounts(earlier: seq<Event>, later: seq<Event>)
    requires earlier <= later
    requires forall i :: |earlier| <= i < |later| && later[i].PassEnded? ==> later[i].end == Finished(Progress)
    ensures PassCount(later) - PassCount(earlier) == ProgressCount(later) - ProgressCount(earlier)
    decreases |later|
  {
    if earlier == later {
    } else {
      var init := later[..|later| - 1];
      assert earlier <= init;
      OnlyProgressCounts(earlier, init);
    }
  }

  lemma NeitherIdleNorAborted(earlier: seq<Event>, later: seq<Event>)
    requires NoAbortSince(earlier, later)
    requires forall i :: |earlier| <= i < |later| ==> later[i] != PassEnded(Finished(Idle))
    ensures forall i :: |earlier| <= i < |later| && later[i].PassEnded? ==> later[i].end == Finished(Progress)
  {
    forall i | |earlier| <= i < |later| && later[i].PassEnded? ensures later[i].end == Finished(Progress) {
      var e := later[i].end;
      assert later[i] == PassEnded(e) && e == Finished(e.result);
      assert e.result == Progress || e.result == Idle;
    }
  }

  /** Always converges: among more than 2N + 2F undisturbed passes from a pass
      boundary, whatever the clock does, at least one is idle. */
  lemma SomePassIsIdle(ws: seq<World>, actions: seq<WorldAction>)
    requires QuietRun(ws, actions) && Sound(ws[0]) && !ws[0].core.worker.Busy?
    requires PassCount(ws[|actions|].core.log)
           > PassCount(ws[0].core.log) + 2 * |ws[0].core.tables.claims| + 2 * ws[0].fake.faults.Total()
    ensures |ws[0].core.log| <= |ws[|actions|].core.log|
    ensures var earlier, later := ws[0].core.log, ws[|actions|].core.log;
            exists i :: |earlier| <= i < |later| && later[i] == PassEnded(Finished(Idle))
  {
    hide Sound, WorldStep, Quiet;
    var earlier, later := ws[0].core.log, ws[|actions|].core.log;
    QuietRunDoesNotAbort(ws, actions);
    ProgressIsBounded(ws, actions);
    if forall i :: |earlier| <= i < |later| ==> later[i] != PassEnded(Finished(Idle)) {
      NeitherIdleNorAborted(earlier, later);
      OnlyProgressCounts(earlier, later);
    }
  }

  /* ---------- starting inside a pass ---------- */

  /** An undisturbed step makes no claim and no fault, and reports progress at
      most once, when it ends the pass. */
  lemma QuietStepShrinks(w: World, a: WorldAction, w': World)
    requires Sound(w) && WorldStep(w, a, w') && Quiet(a) && w.core.worker.Busy?
    ensures w'.core.tables.claims.Keys <= w.core.tables.claims.Keys
    ensures w'.fake.faults.Total() <= w.fake.faults.Total()
    ensures ProgressCount(w'.core.log) <= ProgressCount(w.core.log) + (if w'.core.worker.Busy? then 0 else 1)
  {
    hide Sound, Backed, SetCondition, ProgressCount, Step, Answers;
    KeysShrink(w, a.action, w');
    FaultsShrink(w, a.action, w');
    ReportsOnce(w.core, a.action, w'.core);
  }

  lemma KeysShrink(w: World, a: Action, w': World)
    requires Sound(w) && Step(w.core, a, w'.core) && Quiet(Of(a)) && w.core.worker.Busy?
    ensures w'.core.tables.claims.Keys <= w.core.tables.claims.Keys
  {
    hide Backed, PointBacked, PassBacked, SetCondition, AfterSaving, AfterObserve, AfterEnsure, AfterScan, AfterFetch,
         AfterPersist, AfterSelect, AfterFinalize, AfterCreate, AfterDelete, AfterList, TablesOk, Schema;
    StepOnTables(w.core, a, w'.core);
  }

  lemma FaultsShrink(w: World, a: Action, w': World)
    requires Answers(w, a, w'.fake)
    ensures w'.fake.faults.Total() <= w.fake.faults.Total()
  {
    hide SetCondition, Step;
    match a
    case DoObserve(obs) => ObserveCases(w.fake, w.core.worker.point.host.id);
    case DoCreate(creation, r) =>
      EffectOfCreate(w.fake, w.core.worker.point.host.id, w.core.worker.point.host.row.planId, r);
    case DoDelete(deletion) => DeleteAnswers(w.fake, w.core.worker.point.host.id);
    case _ =>
  }

  lemma EffectOfCreate(f: FakeDb, h: HostId, planId: PlanId, newId: ResourceId)
    ensures CreateResource(f, h, planId, newId).db.faults.Total() <= f.faults.Total()
  {}

  lemma EnvironmentInPass(c: Core, a: Action, c': Core)
    requires Step(c, a, c') && IsEnvironment(a) && c.worker.Busy? && Quiet(Of(a))
    ensures c'.log == c.log && c'.worker == c.worker
  {}

  lemma ReportsOnce(c: Core, a: Action, c': Core)
    requires Step(c, a, c') && Quiet(Of(a)) && c.worker.Busy?
    ensures ProgressCount(c'.log) <= ProgressCount(c.log) + (if c'.worker.Busy? then 0 else 1)
  {
    hide Step, ProgressCount, MovesOn;
    if IsEnvironment(a) {
      EnvironmentInPass(c, a, c');
    } else {
      WorkIsWorkStep(c, a, c');
    }
    var n := |c.log|;
    if |c'.log| == n + 1 {
      ProgressSnoc(c.log, c'.log[n]);
      assert c'.log == c.log + [c'.log[n]];
    } else if |c'.log| == n + 2 {
      ProgressSnoc(c.log, c'.log[n]);
      ProgressSnoc(c.log + [c'.log[n]], c'.log[n + 1]);
      assert c'.log == c.log + [c'.log[n]] + [c'.log[n + 1]];
    } else {
      assert c'.log == c.log;
    }
  }

  /** From any reachable state, also inside a pass, an undisturbed stretch has at
      most 2N + 2F progress reports, and one more if a pass is under way. */
  lemma {:induction false} ProgressFromAnywhere(ws: seq<World>, actions: seq<WorldAction>)
    requires QuietRun(ws, actions) && Sound(ws[0])
    ensures ProgressCount(ws[|actions|].core.log)
         <= ProgressCount(ws[0].core.log) + 2 * |ws[0].core.tables.claims| + 2 * ws[0].fake.faults.Total()
            + (if ws[0].core.worker.Busy? then 1 else 0)
    decreases |actions|
  {
    hide Sound, WorldStep, ProgressCount, Quiet;
    if !ws[0].core.worker.Busy? {
      ProgressIsBounded(ws, actions);
    } else if actions != [] {
      var rest := ws[1..];
      assert rest[|actions| - 1] == ws[|actions|] && rest[0] == ws[1];
      assert QuietRun(rest, actions[1..]);
      WorldStepKeepsSound(ws[0], actions[0], ws[1]);
      QuietStepShrinks(ws[0], actions[0], ws[1]);
      ProgressFromAnywhere(rest, actions[1..]);
      SubsetSize(ws[1].core.tables.claims.Keys, ws[0].core.tables.claims.Keys);
      assert |ws[1].core.tables.claims| == |ws[1].core.tables.claims.Keys|;
      assert |ws[0].core.tables.claims| == |ws[0].core.tables.claims.Keys|;
    }
  }

  lemma SubsetSize(a: set<HostClaimId>, b: set<HostClaimId>)
    requires a <= b
    ensures |a| <= |b|
  {
    assert b == a + (b - a);
  }

  /* ---------- convergence is reached ---------- */

  /** This step lists while no retry is pending. */
  ghost predicate ListsWhenDue(w: World, a: WorldAction) {
    && a.Of? && a.action.List? && w.core.worker.Listing?
    && AllDue(w.core.tables, w.fake, w.core.worker.now)
  }

  /** How many of the first n steps list while no retry is pending. */
  ghost function DueLists(ws: seq<World>, actions: seq<WorldAction>, n: nat): nat
    requires |ws| == |actions| + 1 && n <= |actions|
  {
    if n == 0 then 0
    else DueLists(ws, actions, n - 1) + (if ListsWhenDue(ws[n - 1], actions[n - 1]) then 1 else 0)
  }

  /** After n steps the worker is inside a pass that listed, among them, when no
      retry was pending. */
  ghost predicate InDuePass(ws: seq<World>, actions: seq<WorldAction>, n: nat)
    requires |ws| == |actions| + 1 && n <= |actions|
  {
    && n > 0 && ws[n].core.worker.Busy?
    && (ListsWhenDue(ws[n - 1], actions[n - 1])
        || (ws[n - 1].core.worker.Busy? && InDuePass(ws, actions, n - 1)))
  }

  ghost predicate ConvergedBy(ws: seq<World>, n: nat)
    requires n < |ws|
  {
    exists k :: 0 <= k <= n && Converged(ws[k].core.tables, ws[k].fake)
  }

  /** Unless a converged state has been seen, every pass that listed when no retry
      was pending has reported progress, or is on track to. */
  ghost predicate DueListsPaid(ws: seq<World>, actions: seq<WorldAction>, n: nat)
    requires |ws| == |actions| + 1 && n <= |actions|
  {
    && (InDuePass(ws, actions, n) ==> Fresh(ws[n]) && OnTrack(ws[n]))
    && (|| ConvergedBy(ws, n)
        || DueLists(ws, actions, n) <= ProgressCount(ws[n].core.log) - ProgressCount(ws[0].core.log)
                                       + (if InDuePass(ws, actions, n) then 1 else 0))
  }

  lemma {:induction false} CountIsMonotone(earlier: seq<Event>, later: seq<Event>)
    requires earlier <= later
    ensures ProgressCount(earlier) <= ProgressCount(later)
    decreases |later|
  {
    if earlier != later {
      var init := later[..|later| - 1];
      assert earlier <= init;
      CountIsMonotone(earlier, init);
    }
  }

  lemma ReportIsCounted(earlier: seq<Event>, later: seq<Event>)
    requires earlier <= later && |earlier| < |later| && later[|later| - 1] == PassEnded(Finished(Progress))
    ensures ProgressCount(earlier) < ProgressCount(later)
  {
    assert earlier <= later[..|later| - 1];
    CountIsMonotone(earlier, later[..|later| - 1]);
  }

  lemma EndIsLogged(c: Core, a: Action, c': Core)
    requires Step(c, a, c') && Quiet(Of(a))
    ensures c.log <= c'.log
    ensures c.worker.Busy? && !c'.worker.Busy? ==> |c.log| < |c'.log|
    ensures !c.worker.Busy? && !c'.worker.Busy? ==> c'.tables == c.tables
  {
    hide SetCondition, MovesOn;
    if c.worker.Busy? && !IsEnvironment(a) {
      hide Step;
      WorkIsWorkStep(c, a, c');
    }
  }

  /** One more step keeps the pass on track. */
  lemma StaysOnTrack(w: World, a: WorldAction, w': World)
    requires Sound(w) && Fresh(w) && WorldStep(w, a, w') && Quiet(a)
    requires w.core.worker.Busy? ==> OnTrack(w)
    requires a.action.List? && w.core.worker.Listing? ==> AllDue(w.core.tables, w.fake, w.core.worker.now)
    ensures w'.core.worker.Busy? ==> OnTrack(w')
    ensures w.core.worker.Busy? ==> Outcome(w')
  {
    hide Sound, Fresh, OnTrack, AllDue, Answers, SetCondition;
    if w.core.worker.Busy? {
      hide Step;
      StepOnTrack(w, a, w');
    } else if a.action.List? {
      ListOnTrack(w, a.action.snapshot, w');
    }
  }

  lemma StepIntoDuePass(w: World, a: WorldAction, w': World)
    requires Sound(w) && WorldStep(w, a, w') && ListsWhenDue(w, a)
    ensures w'.core.worker.Busy? && Fresh(w') && OnTrack(w')
  {
    hide Sound, Fresh, OnTrack, AllDue, Answers;
    ListOnTrack(w, a.action.snapshot, w');
    ListIsFresh(w, a.action.snapshot, w');
  }

  /** A due pass that ends has reported progress or left a converged state. */
  lemma StepInDuePass(w: World, a: WorldAction, w': World)
    requires Sound(w) && Fresh(w) && OnTrack(w) && WorldStep(w, a, w') && Quiet(a)
    ensures w'.core.worker.Busy? ==> Fresh(w') && OnTrack(w')
    ensures !w'.core.worker.Busy? ==>
              Converged(w'.core.tables, w'.fake) || ProgressCount(w.core.log) < ProgressCount(w'.core.log)
  {
    hide Sound, Fresh, Step, Answers, Converged, ProgressCount, AllDue;
    QuietIsOf(a);
    QuietKeepsFresh(w, a, w');
    StepOnTrack(w, a, w');
    EndIsLogged(w.core, a.action, w'.core);
    if !w'.core.worker.Busy? && EndsWith(w'.core, Finished(Progress)) {
      ReportIsCounted(w.core.log, w'.core.log);
    }
  }

  lemma {:induction false} DueListsArePaid(ws: seq<World>, actions: seq<WorldAction>, n: nat)
    requires QuietRun(ws, actions) && Sound(ws[0]) && n <= |actions|
    ensures Sound(ws[n]) && DueListsPaid(ws, actions, n)
    decreases n
  {
    hide Sound, WorldStep, Fresh, OnTrack, Quiet, ListsWhenDue, Converged, ProgressCount;
    if n > 0 {
      DueListsArePaid(ws, actions, n - 1);
      var w, a, w' := ws[n - 1], actions[n - 1], ws[n];
      WorldStepKeepsSound(w, a, w');
      LogIsKept(w, a, w');
      if ListsWhenDue(w, a) {
        ListsOutsidePasses(w, a);
        StepIntoDuePass(w, a, w');
      } else if InDuePass(ws, actions, n - 1) {
        StepInDuePass(w, a, w');
      }
    }
  }

  lemma ListsOutsidePasses(w: World, a: WorldAction)
    requires ListsWhenDue(w, a)
    ensures !w.core.worker.Busy?
  {}

  lemma LogIsKept(w: World, a: WorldAction, w': World)
    requires WorldStep(w, a, w') && Quiet(a)
    ensures ProgressCount(w.core.log) <= ProgressCount(w'.core.log)
  {
    hide Step, Answers, ProgressCount;
    QuietIsOf(a);
    EndIsLogged(w.core, a.action, w'.core);
    CountIsMonotone(w.core.log, w'.core.log);
  }

  lemma QuietIsOf(a: WorldAction)
    requires Quiet(a)
    ensures a.Of?
  {}

  /** Always converges: an undisturbed stretch, from any state and with any clock,
      in which more than 2N + 2F passes list when no retry is pending goes through
      a state in which nothing is left to do; passes that list while a retry is
      pending may come in between.  A pass under way at either end costs one more. */
  lemma ConvergenceIsReached(ws: seq<World>, actions: seq<WorldAction>)
    requires QuietRun(ws, actions) && Sound(ws[0])
    requires DueLists(ws, actions, |actions|)
           > 2 * |ws[0].core.tables.claims| + 2 * ws[0].fake.faults.Total()
             + (if ws[0].core.worker.Busy? then 1 else 0) + (if ws[|actions|].core.worker.Busy? then 1 else 0)
    ensures exists k :: 0 <= k <= |actions| && Converged(ws[k].core.tables, ws[k].fake)
  {
    hide Sound, WorldStep, Quiet, Converged, ListsWhenDue, OnTrack, Fresh, ProgressCount;
    DueListsArePaid(ws, actions, |actions|);
    ProgressFromAnywhere(ws, actions);
  }
}
