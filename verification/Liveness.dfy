/** The worker is never stuck, and undisturbed it can always converge. */
module Liveness {
  import opened Wrappers
  import opened Domain
  import opened Protocol
  import opened Invariants
  import opened Steps
  import opened Theorems
  import opened Catalog
  import opened Fake
  import opened FakeSystem
  import opened Database
  import opened Convergence
  import opened Quiescence
  import opened Passes

  /* ---------- a next step ---------- */

  /** Inside a pass the worker always has a step, whose response the fake gives. */
  lemma NextWork(w: World) returns (a: Action, w': World)
    requires Sound(w) && w.core.worker.Busy?
    ensures WorldStep(w, Of(a), w') && !IsEnvironment(a) && Quiet(Of(a))
  {
    hide Sound, Step, AfterScan, AfterFetch, AfterObserve, AfterSaving, AfterCreate, AfterDelete, AfterPersist,
         AfterFinalize, AfterSelect, AfterEnsure, ObserveHost, CreateResource, DeleteResource, SelectPlan;
    var c, f := w.core, w.fake;
    var next, g := c, f;
    match c.worker.point {
      case Scan => a, next := ScanNext, AfterScan(c);
      case Fetch(claim) =>
        FetchIsBound(w);
        a, next := DoFetch, AfterFetch(c);
      case Observe(_, host) =>
        var answer := ObserveHost(f, host.id);
        a, next, g := DoObserve(answer.response), AfterObserve(c, answer.response), answer.db;
      case Save(_, _, _) => a, next := DoSave, AfterSaving(c);
      case Create(_, host) =>
        SomeIdIsNew(f.issued.Keys);
        var newId: ResourceId :| newId !in f.issued.Keys;
        var answer := CreateResource(f, host.id, host.row.planId, newId);
        a, next, g := DoCreate(answer.response, newId), AfterCreate(c, answer.response), answer.db;
      case Delete(_, host) =>
        var answer := DeleteResource(f, host.id);
        a, next, g := DoDelete(answer.response), AfterDelete(c, answer.response), answer.db;
      case Persist(_, _) => a, next := DoPersist, AfterPersist(c);
      case Finalize(_) => a, next := DoFinalize, AfterFinalize(c);
      case Select(claim) =>
        var selected := SelectPlan(f.plans, claim.row.spec);
        a, next := DoSelect(selected), AfterSelect(c, selected);
      case Ensure(_, _) =>
        SomeIdIsNew(c.tables.issued);
        var newId: HostId :| newId !in c.tables.issued;
        a, next := DoEnsure(newId), AfterEnsure(c, newId);
    }
    w' := World(next, g);
    StepOfWork(c, a, next);
  }

  lemma FetchIsBound(w: World)
    requires Sound(w) && w.core.worker.Busy? && w.core.worker.point.Fetch?
    ensures w.core.worker.point.claim.hostId.Some?
  {
    hide Backed, PassBacked, PointBacked, TablesOk, PassOk;
  }

  ghost predicate FollowsCall(c: Core, a: Action, c': Core) {
    At(c, a) &&
    match a
    case ScanNext => c' == AfterScan(c)
    case DoFetch => c' == AfterFetch(c)
    case DoObserve(obs) => c' == AfterObserve(c, obs)
    case DoSave => c' == AfterSaving(c)
    case DoCreate(creation, _) => c' == AfterCreate(c, creation)
    case DoDelete(deletion) => c' == AfterDelete(c, deletion)
    case DoPersist => c' == AfterPersist(c)
    case DoFinalize => c' == AfterFinalize(c)
    case DoSelect(selected) => c' == AfterSelect(c, selected)
    case DoEnsure(newHost) => c' == AfterEnsure(c, newHost)
    case _ => false
  }

  lemma StepOfWork(c: Core, a: Action, c': Core)
    requires FollowsCall(c, a, c')
    ensures Step(c, a, c')
  {
    hide AfterScan, AfterFetch, AfterObserve, AfterSaving, AfterCreate, AfterDelete, AfterPersist, AfterFinalize,
         AfterSelect, AfterEnsure;
  }

  /** How many steps of the worker lie before the next listing, at most. */
  function Distance(worker: Worker): nat {
    match worker
    case Down => 0
    case Listing(_, _) => 0
    case Parked => 1
    case LimitReached => 2
    case Busy(_, p, point) => 3 + (if p.i <= |p.snapshot| then Fuel(p, point) else 0)
  }

  /** Until it lists, each step of the worker takes it closer to a listing, whose
      clock reading is then the current one. */
  lemma NextStep(w: World) returns (a: WorldAction, w': World)
    requires Sound(w) && w.core.worker != Down && !w.core.worker.Listing?
    ensures WorldStep(w, a, w') && Quiet(a) && w'.core.clock == w.core.clock && w'.core.worker != Down
    ensures Distance(w'.core.worker) < Distance(w.core.worker)
    ensures w'.core.worker.Listing? ==> w'.core.worker.now == NowUnixMs(w'.core.clock)
  {
    hide Sound, Fuel;
    match w.core.worker {
      case Parked =>
        a := Of(Resume);
        w' := w.(core := w.core.(worker := Listing(0, NowUnixMs(w.core.clock)), permit := false));
      case LimitReached =>
        a := Of(WakeSelf);
        w' := w.(core := w.core.(worker := Parked, lastDrain := ReachedStepLimit, permit := true));
      case Busy(_, _, _) =>
        hide Step, Answers, Reports, MovesOn;
        var action: Action;
        action, w' := NextWork(w);
        a := Of(action);
        WorkIsWorkStep(w.core, action, w'.core);
        SoundParts(w);
        if w'.core.worker.Busy? { WorkUsesFuel(w.core, action, w'.core); }
    }
  }

  /* ---------- longer continuations ---------- */

  ghost predicate Grown(ws: seq<World>, actions: seq<WorldAction>, ws': seq<World>, actions': seq<WorldAction>) {
    && QuietRun(ws', actions') && ws <= ws' && actions <= actions'
  }

  lemma OneMore(ws: seq<World>, actions: seq<WorldAction>, a: WorldAction, w': World)
    requires QuietRun(ws, actions) && WorldStep(ws[|actions|], a, w') && Quiet(a)
    ensures Grown(ws, actions, ws + [w'], actions + [a])
    ensures DueLists(ws + [w'], actions + [a], |actions| + 1)
         == DueLists(ws, actions, |actions|) + (if ListsWhenDue(ws[|actions|], a) then 1 else 0)
  {
    hide WorldStep, Quiet, ListsWhenDue;
    SameDueLists(ws, actions, ws + [w'], actions + [a], |actions|);
  }

  lemma {:induction false} SameDueLists(ws: seq<World>, actions: seq<WorldAction>, ws': seq<World>,
                                        actions': seq<WorldAction>, n: nat)
    requires |ws| == |actions| + 1 && |ws'| == |actions'| + 1 && ws <= ws' && actions <= actions' && n <= |actions|
    ensures DueLists(ws', actions', n) == DueLists(ws, actions, n)
  {
    hide ListsWhenDue;
    if n > 0 { SameDueLists(ws, actions, ws', actions', n - 1); }
  }

  /** On to the next listing. */
  lemma {:induction false} GrowToListing(ws: seq<World>, actions: seq<WorldAction>)
    returns (ws': seq<World>, actions': seq<WorldAction>)
    requires QuietRun(ws, actions) && Sound(ws[|actions|]) && ws[|actions|].core.worker != Down
    ensures Grown(ws, actions, ws', actions') && Sound(ws'[|actions'|]) && ws'[|actions'|].core.worker.Listing?
    ensures DueLists(ws, actions, |actions|) <= DueLists(ws', actions', |actions'|)
    ensures ws'[|actions'|].core.clock == ws[|actions|].core.clock
    ensures var last := ws'[|actions'|].core;
            !ws[|actions|].core.worker.Listing? || ws[|actions|].core.worker.now == NowUnixMs(last.clock) ==>
              last.worker.now == NowUnixMs(last.clock)
    decreases Distance(ws[|actions|].core.worker)
  {
    hide Sound, WorldStep, Quiet, ListsWhenDue, DueLists, Distance;
    var w := ws[|actions|];
    if w.core.worker.Listing? {
      ws', actions' := ws, actions;
    } else {
      var a, w' := NextStep(w);
      WorldStepKeepsSound(w, a, w');
      OneMore(ws, actions, a, w');
      ws', actions' := GrowToListing(ws + [w'], actions + [a]);
    }
  }

  /** A listing at the end of the clock's range finds no retry pending. */
  lemma ListNow(w: World) returns (a: WorldAction, w': World)
    requires Sound(w) && w.core.worker.Listing?
    ensures WorldStep(w, a, w') && Quiet(a) && w'.core.worker.Busy? && w'.core.clock == w.core.clock
    ensures w.core.worker.now == I64_MAX ==> ListsWhenDue(w, a)
  {
    hide Sound, Settled;
    var t := w.core.tables;
    var s := SomeListing(t, t.claims.Keys);
    ListedSoFar(t, s, {});
    a := Of(List(s));
    w' := w.(core := AfterList(w.core, s));
  }

  /** As many listings with no retry pending as one likes. */
  lemma {:induction false} GrowDueLists(ws: seq<World>, actions: seq<WorldAction>, d: nat)
    returns (ws': seq<World>, actions': seq<WorldAction>)
    requires QuietRun(ws, actions) && Sound(ws[|actions|])
    requires ws[|actions|].core.worker.Listing? && ws[|actions|].core.worker.now == I64_MAX
    requires I64_MAX <= ws[|actions|].core.clock
    ensures Grown(ws, actions, ws', actions') && ws'[|actions'|].core.worker.Listing?
    ensures DueLists(ws, actions, |actions|) + d <= DueLists(ws', actions', |actions'|)
    decreases d
  {
    hide Sound, WorldStep, Quiet, ListsWhenDue, DueLists;
    if d == 0 {
      ws', actions' := ws, actions;
    } else {
      var w := ws[|actions|];
      var a, w' := ListNow(w);
      WorldStepKeepsSound(w, a, w');
      OneMore(ws, actions, a, w');
      var ws1, actions1 := GrowToListing(ws + [w'], actions + [a]);
      ws', actions' := GrowDueLists(ws1, actions1, d - 1);
    }
  }

  /** From every consistent state of a running process some undisturbed
      continuation ends in a state in which nothing is left to do. */
  lemma CanConverge(w: World) returns (ws: seq<World>, actions: seq<WorldAction>)
    requires Sound(w) && w.core.worker != Down
    ensures QuietRun(ws, actions) && ws[0] == w
    ensures Converged(ws[|actions|].core.tables, ws[|actions|].fake)
  {
    hide Sound, WorldStep, Quiet, ListsWhenDue, DueLists, Converged;
    var a, w1 := LetTimePass(w);
    WorldStepKeepsSound(w, a, w1);
    OneMore([w], [], a, w1);
    assert [w] + [w1] == [w, w1] && [] + [a] == [a];
    ws, actions := [w, w1], [a];
    if w1.core.worker.Listing? {
      var b, w2 := ListNow(w1);
      WorldStepKeepsSound(w1, b, w2);
      OneMore(ws, actions, b, w2);
      ws, actions := ws + [w2], actions + [b];
    }
    ws, actions := GrowToListing(ws, actions);
    var d := 2 * |w.core.tables.claims| + 2 * w.fake.faults.Total() + 2;
    ws, actions := GrowDueLists(ws, actions, d);
    ConvergenceIsReached(ws, actions);
    var k :| 0 <= k <= |actions| && Converged(ws[k].core.tables, ws[k].fake);
    assert ws[..k + 1][k] == ws[k];
    CutRun(ws, actions, k);
    ws, actions := ws[..k + 1], actions[..k];
  }

  lemma CutRun(ws: seq<World>, actions: seq<WorldAction>, k: nat)
    requires QuietRun(ws, actions) && k <= |actions|
    ensures QuietRun(ws[..k + 1], actions[..k])
  {
    hide WorldStep, Quiet;
  }

  /** Every deadline lies within the clock's range. */
  lemma LetTimePass(w: World) returns (a: WorldAction, w': World)
    ensures WorldStep(w, a, w') && Quiet(a) && w'.core.worker == w.core.worker && I64_MAX <= w'.core.clock
  {
    var clock: nat := if w.core.clock < I64_MAX then I64_MAX else w.core.clock;
    a := Of(Tick(clock));
    w' := w.(core := w.core.(clock := clock));
  }
}
