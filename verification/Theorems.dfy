/** The guarantees over whole runs: every interleaving of the controller with
    RPCs, the clock, crashes and storage failures, from an empty database. */
module Theorems {
  import opened Wrappers
  import opened Domain
  import opened Tables
  import opened Protocol
  import opened Invariants
  import opened Guarantees
  import opened Steps
  import opened Sorted

  /* ---------- every reachable state ---------- */

  ghost predicate Good(c: Core) {
    Safe(c) && AllGuarded(c.log) && TailOk(c) && WakeOk(c)
  }

  lemma InitIsGood(c: Core)
    requires Init(c)
    ensures Good(c)
  {}

  lemma {:induction false} RunsAreGood(cs: seq<Core>, actions: seq<Action>, k: nat)
    requires Run(cs, actions) && Init(cs[0]) && k <= |actions|
    ensures Good(cs[k])
  {
    hide Safe, AllGuarded, TailOk, WakeOk, Step;
    if k == 0 {
      InitIsGood(cs[0]);
    } else {
      RunsAreGood(cs, actions, k - 1);
      StepKeepsSafe(cs[k - 1], actions[k - 1], cs[k]);
      StepKeepsGuards(cs[k - 1], actions[k - 1], cs[k]);
      StepKeepsWake(cs[k - 1], actions[k - 1], cs[k]);
    }
  }

  /* ---------- provider calls ---------- */

  /** Guarded deletion: every delete ever issued was for a host whose claim was
      durably released, after Deleting and the resource ID were committed, on a
      lookup in the same step that returned that ID and contradicted no record. */
  lemma DeletionsAreGuarded(cs: seq<Core>, actions: seq<Action>, k: nat, i: nat)
    requires Run(cs, actions) && Init(cs[0]) && k <= |actions| && i < |cs[k].log| && cs[k].log[i].DeleteCalled?
    ensures DeleteGuarded(cs[k].log, i)
  {
    hide Step, Init, DeleteGuarded;
    RunsAreGood(cs, actions, k);
    assert Guarded(cs[k].log, i);
  }

  /** Write-ahead intent: every create ever issued had Provisioning and the plan
      committed just before, on a lookup that found nothing. */
  lemma CreationsAreGuarded(cs: seq<Core>, actions: seq<Action>, k: nat, i: nat)
    requires Run(cs, actions) && Init(cs[0]) && k <= |actions| && i < |cs[k].log| && cs[k].log[i].CreateCalled?
    ensures CreateGuarded(cs[k].log, i)
  {
    hide Step, Init, CreateGuarded;
    RunsAreGood(cs, actions, k);
    assert Guarded(cs[k].log, i);
  }

  /** A claim is finalized only once released and, when bound, only right after
      an observation that its resource is absent. */
  lemma FinalizationsAreGuarded(cs: seq<Core>, actions: seq<Action>, k: nat, i: nat)
    requires Run(cs, actions) && Init(cs[0]) && k <= |actions| && i < |cs[k].log| && cs[k].log[i].Finalized?
    ensures FinalizeGuarded(cs[k].log, i)
  {
    hide Step, Init, FinalizeGuarded;
    RunsAreGood(cs, actions, k);
    assert Guarded(cs[k].log, i);
  }

  /** The controller never misses a row: no pass ends in NotFound. */
  lemma NoPassMissesARow(cs: seq<Core>, actions: seq<Action>, k: nat)
    requires Run(cs, actions) && Init(cs[0]) && k <= |actions|
    ensures forall i :: 0 <= i < |cs[k].log| ==> cs[k].log[i] != PassEnded(Aborted(NotFound))
  {
    hide Step, Init, DeleteGuarded, CreateGuarded, FinalizeGuarded, Safe, TailOk, WakeOk;
    RunsAreGood(cs, actions, k);
    forall i | 0 <= i < |cs[k].log| ensures cs[k].log[i] != PassEnded(Aborted(NotFound)) {
      assert Guarded(cs[k].log, i);
    }
  }

  /* ---------- wake-ups ---------- */

  /** Every mutation whose wake was issued was committed before a later listing. */
  predicate AllWokenListed(c: Core) {
    forall m :: 0 <= m < c.mutations && m !in c.unwoken ==> m < c.listed
  }

  /** No lost wake-up: when the loop is parked without a permit its last drain
      ended idle or in an error, never at the step limit; and unless that error
      was the drain's first listing, every issued wake has been answered. */
  lemma NoLostWakeup(cs: seq<Core>, actions: seq<Action>, k: nat)
    requires Run(cs, actions) && Init(cs[0]) && k <= |actions|
    requires cs[k].worker == Parked && !cs[k].permit
    ensures cs[k].lastDrain in {BecameIdle, StoppedByError} || cs[k].lastDrain.ListingFailed?
    ensures cs[k].lastDrain != ListingFailed(0) ==> AllWokenListed(cs[k])
  {
    hide Step, Init, Safe;
    RunsAreGood(cs, actions, k);
    forall m | 0 <= m < cs[k].mutations && m !in cs[k].unwoken && cs[k].lastDrain != ListingFailed(0)
      ensures m < cs[k].listed
    {
      assert WillSee(cs[k], m);
    }
  }

  /** The exception is real: a wake is consumed by a drain whose first listing fails,
      and the mutation then waits for the next interval tick. */
  lemma FailedListingDropsTheWake(spec: HostResources)
    returns (cs: seq<Core>, actions: seq<Action>)
    requires Storable(spec)
    ensures Run(cs, actions) && Init(cs[0])
    ensures var c := cs[|actions|];
            && c.worker == Parked && !c.permit && c.lastDrain == ListingFailed(0)
            && c.mutations == 1 && c.unwoken == {} && !AllWokenListed(c)
  {
    hide SetCondition, InitialClaim;
    var c0 := Core(EMPTY, 0, Down, false, 0, {}, 0, NoDrainYet, []);
    var c1 := c0.(worker := Parked, permit := true);
    var c2 := AfterRpcCreate(c1, 7, spec);
    var c3 := c2.(unwoken := {}, permit := true);
    var c4 := c3.(worker := Listing(0, 0), permit := false);
    var c5 := Log(c4.(worker := Parked, lastDrain := ListingFailed(0)), PassEnded(Aborted(Internal)));
    cs := [c0, c1, c2, c3, c4, c5];
    actions := [Restart, RpcCreate(7, spec), RpcWake(0), Resume, ListFails];
    assert Step(c2, RpcWake(0), c3) by { assert c2.unwoken == {0}; }
    assert Step(c3, Resume, c4);
    assert !(0 < c5.listed);
  }

  /** The handler that committed mutation `m` is done: it called `wake`, or died
      in a crash before it could. */
  predicate HandlerEnds(c: Core, a: Action, m: nat) {
    a == RpcWake(m) || (a.Crash? && m in c.unwoken)
  }

  /** Step `s` begins the run or follows a listing, and no listing succeeded since. */
  ghost predicate SinceListing(cs: seq<Core>, actions: seq<Action>, s: nat, k: nat)
    requires |cs| == |actions| + 1
  {
    && s <= k <= |actions|
    && (s == 0 || actions[s - 1].List?)
    && forall j :: s <= j < k ==> !actions[j].List?
  }

  lemma StepOnHandlers(c: Core, a: Action, c': Core, m: nat)
    requires WakeOk(c) && Step(c, a, c') && !a.List?
    ensures c'.listed == c.listed && c.mutations <= c'.mutations
    ensures m < c.mutations ==> (m in c'.unwoken <==> m in c.unwoken && !HandlerEnds(c, a, m))
    ensures c.mutations <= m < c'.mutations ==> m in c'.unwoken
    ensures c.mutations <= m ==> !HandlerEnds(c, a, m)
  {
    hide SetCondition, CreateClaim, MarkClaimDeleting;
    if !IsEnvironment(a) && c.worker.Busy? {
      hide Step, Reports, MovesOn;
      WorkIsWorkStep(c, a, c');
    }
  }

  lemma ListingCoversAll(c: Core, a: Action, c': Core)
    requires Step(c, a, c') && a.List?
    ensures c'.listed == c'.mutations
  {}

  lemma {:induction false} UnwokenSince(cs: seq<Core>, actions: seq<Action>, s: nat, k: nat, m: nat)
    requires Run(cs, actions) && Init(cs[0]) && SinceListing(cs, actions, s, k)
    ensures cs[k].listed == cs[s].mutations <= cs[k].mutations
    ensures cs[s].mutations <= m < cs[k].mutations ==>
              (m !in cs[k].unwoken <==> exists j :: s <= j < k && HandlerEnds(cs[j], actions[j], m))
    ensures cs[k].mutations <= m ==> forall j :: s <= j < k ==> !HandlerEnds(cs[j], actions[j], m)
    decreases k
  {
    hide Step, Safe, AllGuarded, TailOk, WakeOk, HandlerEnds;
    if k == s {
      if s > 0 { ListingCoversAll(cs[s - 1], actions[s - 1], cs[s]); }
    } else {
      UnwokenSince(cs, actions, s, k - 1, m);
      RunsAreGood(cs, actions, k - 1);
      StepOnHandlers(cs[k - 1], actions[k - 1], cs[k], m);
      assert (exists j :: s <= j < k && HandlerEnds(cs[j], actions[j], m))
        <==> || HandlerEnds(cs[k - 1], actions[k - 1], m)
             || exists j :: s <= j < k - 1 && HandlerEnds(cs[j], actions[j], m);
    }
  }

  /** Exactly when wakes are unanswered, in any reachable state: when since the
      last listing a handler has ended whose mutation that listing did not cover.
      Together with `NoLostWakeup` this settles the drain whose first listing
      failed: nothing is lost if and only if no such handler ended since. */
  lemma WakesLostExactlyWhen(cs: seq<Core>, actions: seq<Action>, s: nat, k: nat)
    requires Run(cs, actions) && Init(cs[0]) && SinceListing(cs, actions, s, k)
    ensures AllWokenListed(cs[k])
       <==> forall j, m: nat :: s <= j < k && cs[s].mutations <= m ==> !HandlerEnds(cs[j], actions[j], m)
  {
    hide Step, Init, HandlerEnds;
    var since := cs[s].mutations;
    if AllWokenListed(cs[k]) {
      forall j, m: nat | s <= j < k && since <= m ensures !HandlerEnds(cs[j], actions[j], m) {
        UnwokenSince(cs, actions, s, k, m);
      }
    }
    if forall j, m: nat :: s <= j < k && since <= m ==> !HandlerEnds(cs[j], actions[j], m) {
      forall m | 0 <= m < cs[k].mutations && m !in cs[k].unwoken ensures m < cs[k].listed {
        UnwokenSince(cs, actions, s, k, m);
      }
    }
  }

  /* ---------- rows over time ---------- */

  ghost predicate LivesThrough(cs: seq<Core>, i: nat, j: nat, id: HostClaimId) {
    i <= j < |cs| && forall k :: i <= k <= j ==> id in cs[k].tables.claims
  }

  /** Stale writers lose: once a claim is released, as long as its row lives its
      deletion time never changes and its Ready condition stays False. */
  lemma {:induction false} ReleaseIsPermanent(cs: seq<Core>, actions: seq<Action>, i: nat, j: nat, id: HostClaimId)
    requires Run(cs, actions) && Init(cs[0]) && LivesThrough(cs, i, j, id)
    requires Released(cs[i].tables.claims[id])
    ensures StaysReleased(cs[i].tables.claims[id], cs[j].tables.claims[id])
    decreases j - i
  {
    hide Safe, AllGuarded, TailOk, WakeOk, Step;
    RunsAreGood(cs, actions, i);
    if i == j {
      ReleasedIsNotReady(cs[i], id);
    } else {
      RunsAreGood(cs, actions, j - 1);
      ReleaseIsPermanent(cs, actions, i, j - 1, id);
      ReleaseIsFinal(cs[j - 1], actions[j - 1], cs[j], id);
    }
  }

  lemma ReleasedIsNotReady(c: Core, id: HostClaimId)
    requires Safe(c) && id in c.tables.claims && Released(c.tables.claims[id])
    ensures ReadyIs(c.tables.claims[id].conditions, False)
  {}

  /** A claim's spec, generation and creation time never change while its row lives. */
  lemma {:induction false} ClaimIdentityIsPermanent(cs: seq<Core>, actions: seq<Action>, i: nat, j: nat,
                                                    id: HostClaimId)
    requires Run(cs, actions) && Init(cs[0]) && LivesThrough(cs, i, j, id)
    ensures SameClaim(cs[i].tables.claims[id], cs[j].tables.claims[id])
    decreases j - i
  {
    hide Safe, AllGuarded, TailOk, WakeOk, Step;
    if i < j {
      RunsAreGood(cs, actions, j - 1);
      ClaimIdentityIsPermanent(cs, actions, i, j - 1, id);
      IdentityIsFixed(cs[j - 1], actions[j - 1], cs[j]);
    }
  }

  /** A host keeps its claim, plan and capacity for as long as its claim's row
      lives, and no claim ever has two hosts. */
  lemma {:induction false} HostIdentityIsPermanent(cs: seq<Core>, actions: seq<Action>, i: nat, j: nat, h: HostId)
    requires Run(cs, actions) && Init(cs[0]) && i <= j < |cs| && h in cs[i].tables.hosts
    requires LivesThrough(cs, i, j, cs[i].tables.hosts[h].claimId)
    ensures h in cs[j].tables.hosts && SameHost(cs[i].tables.hosts[h], cs[j].tables.hosts[h])
    ensures forall g :: Owns(cs[j].tables, g, cs[i].tables.hosts[h].claimId) ==> g == h
    decreases j - i
  {
    hide AllGuarded, TailOk, WakeOk, Step, WorkerOk;
    RunsAreGood(cs, actions, j);
    if i < j {
      RunsAreGood(cs, actions, j - 1);
      HostIdentityIsPermanent(cs, actions, i, j - 1, h);
      IdentityIsFixed(cs[j - 1], actions[j - 1], cs[j]);
    }
  }

  /** Failed is absorbing: as long as its claim stays live a failed host's row
      does not change, and the log gains no entry about it. */
  lemma {:induction false} FailedStaysFailed(cs: seq<Core>, actions: seq<Action>, i: nat, j: nat, h: HostId)
    requires Run(cs, actions) && Init(cs[0]) && i <= j < |cs| && FailedAndLive(cs[i].tables, h)
    requires forall k :: i <= k <= j ==>
               && cs[i].tables.hosts[h].claimId in cs[k].tables.claims
               && !Released(cs[k].tables.claims[cs[i].tables.hosts[h].claimId])
    ensures h in cs[j].tables.hosts && cs[j].tables.hosts[h] == cs[i].tables.hosts[h]
    ensures cs[i].log <= cs[j].log
    ensures forall n :: |cs[i].log| <= n < |cs[j].log| ==> !Mentions(cs[j].log[n], h)
    decreases j - i
  {
    hide Safe, AllGuarded, TailOk, WakeOk, Step, Mentions;
    if i < j {
      RunsAreGood(cs, actions, j - 1);
      FailedStaysFailed(cs, actions, i, j - 1, h);
      FailedIsAbsorbing(cs[j - 1], actions[j - 1], cs[j], h);
    }
  }

  /* ---------- single states ---------- */

  /** Every deadline of a live claim's host lies at most a minute ahead of the clock. */
  lemma DeadlinesAreBounded(cs: seq<Core>, actions: seq<Action>, k: nat, h: HostId)
    requires Run(cs, actions) && Init(cs[0]) && k <= |actions| && h in cs[k].tables.hosts
    ensures var t := cs[k].tables;
            && t.hosts[h].claimId in t.claims
            && (!Released(t.claims[t.hosts[h].claimId]) && t.hosts[h].retry.nextReconcileAt.Some? ==>
                  t.hosts[h].retry.nextReconcileAt.value <= cs[k].clock + 60_000)
  {
    hide WorkerOk;
    RunsAreGood(cs, actions, k);
  }

  /** Deletion priority and order: each claim the snapshot shows as deleting that
      the worker has passed, all of them while it handles live claims, is bound to
      a host that is not due. */
  lemma DeletionsGoFirst(cs: seq<Core>, actions: seq<Action>, k: nat, n: nat)
    requires Run(cs, actions) && Init(cs[0]) && k <= |actions|
    requires cs[k].worker.Busy? && n < |cs[k].worker.pass.snapshot|
    requires cs[k].worker.pass.live || n < cs[k].worker.pass.i
    requires Released(cs[k].worker.pass.snapshot[n].row)
    ensures var r := cs[k].worker.pass.snapshot[n];
            && r.hostId.Some? && Owns(cs[k].tables, r.hostId.value, r.id)
            && !cs[k].tables.hosts[r.hostId.value].retry.IsDue(cs[k].worker.pass.now)
  {
    hide TablesOk, PointOk;
    RunsAreGood(cs, actions, k);
    assert Agrees(cs[k].tables, cs[k].worker.pass.snapshot[n]);
  }

  /** In every reachable state the stored condition lists are maps: sorted by type
      without duplicates, and so are those of the records the worker has listed. */
  lemma {:induction false} ConditionsStaySorted(cs: seq<Core>, actions: seq<Action>, k: nat)
    requires Run(cs, actions) && Init(cs[0]) && k <= |actions|
    ensures AllSorted(cs[k])
  {
    hide Step;
    if k > 0 {
      ConditionsStaySorted(cs, actions, k - 1);
      StepKeepsSorted(cs[k - 1], actions[k - 1], cs[k]);
    }
  }

  /* ---------- passes end ---------- */

  /** Steps this pass can still take, whatever the provider answers. */
  function Fuel(p: Pass, point: Point): nat
    requires p.i <= |p.snapshot|
  {
    9 * ((if p.live then 0 else |p.snapshot| + 1) + (|p.snapshot| - p.i)) + Weight(point)
  }

  /** Every step of the worker inside a pass uses fuel, whatever the provider answers. */
  lemma WorkUsesFuel(c: Core, a: Action, c': Core)
    requires Safe(c) && Step(c, a, c') && !IsEnvironment(a) && c.worker.Busy? && c'.worker.Busy?
    ensures c.worker.pass.i <= |c.worker.pass.snapshot| && c'.worker.pass.i <= |c'.worker.pass.snapshot|
    ensures Fuel(c'.worker.pass, c'.worker.point) < Fuel(c.worker.pass, c.worker.point)
  {
    hide Safe, Step, Weight;
    WorkIsWorkStep(c, a, c');
    StepKeepsSafe(c, a, c');
    IndexInRange(c);
    IndexInRange(c');
    ScanWeighsMost(c.worker.point);
  }

  lemma ScanWeighsMost(point: Point)
    ensures Weight(point) <= Weight(Scan) < 9
  {}

  lemma IndexInRange(c: Core)
    requires Safe(c) && c.worker.Busy?
    ensures c.worker.pass.i <= |c.worker.pass.snapshot|
    ensures !c.worker.point.Scan? ==> c.worker.pass.i < |c.worker.pass.snapshot|
  {}

  /** The steps of the worker among actions i to j. */
  function WorkCount(actions: seq<Action>, i: nat, j: nat): nat
    requires i <= j <= |actions|
  {
    if i == j then 0 else WorkCount(actions, i, j - 1) + (if IsEnvironment(actions[j - 1]) then 0 else 1)
  }

  lemma EnvironmentKeepsPass(c: Core, a: Action, c': Core)
    requires Step(c, a, c') && IsEnvironment(a) && c'.worker.Busy?
    ensures c'.worker == c.worker
  {}

  lemma {:induction false} WorkIsPaidFor(cs: seq<Core>, actions: seq<Action>, i: nat, j: nat)
    requires Run(cs, actions) && Init(cs[0]) && i <= j <= |actions|
    requires forall k :: i <= k <= j ==> cs[k].worker.Busy?
    ensures cs[i].worker.pass.i <= |cs[i].worker.pass.snapshot| && cs[j].worker.pass.i <= |cs[j].worker.pass.snapshot|
    ensures WorkCount(actions, i, j) + Fuel(cs[j].worker.pass, cs[j].worker.point)
         <= Fuel(cs[i].worker.pass, cs[i].worker.point)
    decreases j
  {
    hide Safe, AllGuarded, TailOk, WakeOk, Step, Fuel;
    RunsAreGood(cs, actions, j);
    IndexInRange(cs[j]);
    if i < j {
      WorkIsPaidFor(cs, actions, i, j - 1);
      RunsAreGood(cs, actions, j - 1);
      if IsEnvironment(actions[j - 1]) {
        EnvironmentKeepsPass(cs[j - 1], actions[j - 1], cs[j]);
      } else {
        WorkUsesFuel(cs[j - 1], actions[j - 1], cs[j]);
      }
    }
  }

  /** Passes end: in every run, with anything happening in between, a pass that
      listed n claims takes at most 18n + 17 steps of the worker while it lasts. */
  lemma PassesAreShort(cs: seq<Core>, actions: seq<Action>, i: nat, j: nat)
    requires Run(cs, actions) && Init(cs[0]) && i < j <= |actions| && actions[i].List?
    requires forall k :: i < k <= j ==> cs[k].worker.Busy?
    ensures WorkCount(actions, i + 1, j) <= 18 * |actions[i].snapshot| + 17
  {
    hide Init;
    WorkIsPaidFor(cs, actions, i + 1, j);
    assert Step(cs[i], actions[i], cs[i + 1]);
  }

  /* ---------- drains end ---------- */

  /** The passes begun by actions i to j. */
  function PassesBegun(actions: seq<Action>, i: nat, j: nat): nat
    requires i <= j <= |actions|
  {
    if i == j then 0 else PassesBegun(actions, i, j - 1) + (if actions[j - 1].List? then 1 else 0)
  }

  predicate Counted(worker: Worker, passes: nat) {
    match worker
    case Down => false
    case Parked => passes <= MAX_STEPS_PER_WAKE
    case LimitReached => passes == MAX_STEPS_PER_WAKE
    case Listing(used, _) => passes == used < MAX_STEPS_PER_WAKE
    case Busy(used, _, _) => passes == used + 1 <= MAX_STEPS_PER_WAKE
  }

  lemma StepIsCounted(c: Core, a: Action, c': Core, passes: nat)
    requires Safe(c) && Safe(c') && Step(c, a, c') && Counted(c.worker, passes) && !a.Resume? && !a.Crash?
    ensures Counted(c'.worker, passes + if a.List? then 1 else 0)
  {
    hide TablesOk, PassOk, PointOk, Reports, MovesOn;
    if c.worker.Busy? && !IsEnvironment(a) { WorkCounts(c, a, c'); } else { OutsideCounts(c, a, c'); }
  }

  lemma WorkCounts(c: Core, a: Action, c': Core)
    requires Step(c, a, c') && c.worker.Busy? && !IsEnvironment(a)
    ensures !a.List? && WorkStep(c, c')
  {
    hide Reports, MovesOn;
    WorkIsWorkStep(c, a, c');
  }

  lemma OutsideCounts(c: Core, a: Action, c': Core)
    requires Step(c, a, c') && (!c.worker.Busy? || IsEnvironment(a)) && !a.Resume? && !a.Crash?
    ensures || c'.worker == c.worker || (a.Restart? && c.worker == Down)
            || (c'.worker == Parked && (c.worker == LimitReached || c.worker.Listing?) && !a.List?)
            || (a.List? && c.worker.Listing? && c'.worker.Busy? && c'.worker.used == c.worker.used)
    ensures a.List? ==> c.worker.Listing? && c'.worker.Busy? && c'.worker.used == c.worker.used
  {
    hide CreateClaim, MarkClaimDeleting, IsListing;
  }

  /** Drains are bounded: in every run, a wait that ends is followed by at most 64
      passes before the next wait, and a drain stops at its limit after exactly 64. */
  lemma {:induction false} DrainsAreBounded(cs: seq<Core>, actions: seq<Action>, i: nat, j: nat)
    requires Run(cs, actions) && Init(cs[0]) && i < j <= |actions| && actions[i].Resume?
    requires forall m :: i < m < j ==> !actions[m].Resume? && !actions[m].Crash?
    ensures Counted(cs[j].worker, PassesBegun(actions, i + 1, j))
    ensures PassesBegun(actions, i + 1, j) <= 64
    ensures cs[j].worker == LimitReached ==> PassesBegun(actions, i + 1, j) == 64
    decreases j
  {
    hide Safe, AllGuarded, TailOk, WakeOk, Step, Counted, Init;
    if j == i + 1 {
      ResumeStarts(cs[i], actions[i], cs[j]);
    } else {
      DrainsAreBounded(cs, actions, i, j - 1);
      RunsAreGood(cs, actions, j - 1);
      RunsAreGood(cs, actions, j);
      StepIsCounted(cs[j - 1], actions[j - 1], cs[j], PassesBegun(actions, i + 1, j - 1));
    }
    CountedIsBounded(cs[j].worker, PassesBegun(actions, i + 1, j));
  }

  lemma CountedIsBounded(worker: Worker, passes: nat)
    requires Counted(worker, passes)
    ensures passes <= 64 && (worker == LimitReached ==> passes == 64)
  {}

  lemma ResumeStarts(c: Core, a: Action, c': Core)
    requires Step(c, a, c') && a.Resume?
    ensures Counted(c'.worker, 0)
  {}

  /* ---------- discarded work ---------- */

  /** The step drops a status or an assignment because its claim was released, or is
      gone, since the pass listed it. */
  predicate Discards(c: Core, a: Action) {
    && At(c, a)
    && var t := c.tables;
       || (a.DoPersist? && !Current(t, c.worker.point.claim))
       || (&& a.DoEnsure? && Storable(c.worker.point.plan.resources)
           && (c.worker.point.claim.id in t.claims ==> Released(t.claims[c.worker.point.claim.id])))
  }

  lemma DiscardingWakes(c: Core, a: Action, c': Core)
    requires Step(c, a, c') && Discards(c, a)
    ensures c'.permit && c'.tables == c.tables
  {}

  lemma PermitLasts(c: Core, a: Action, c': Core)
    requires Step(c, a, c') && (c.permit || c.worker.Listing?) && !a.List? && !a.ListFails? && !a.Crash?
    ensures c'.permit || c'.worker.Listing?
  {
    hide Reports, MovesOn;
    if c.worker.Busy? && !IsEnvironment(a) { WorkCounts(c, a, c'); } else { PermitLastsOutside(c, a, c'); }
  }

  lemma PermitLastsOutside(c: Core, a: Action, c': Core)
    requires Step(c, a, c') && (!c.worker.Busy? || IsEnvironment(a)) && (c.permit || c.worker.Listing?)
    requires !a.List? && !a.ListFails? && !a.Crash?
    ensures c'.permit || c'.worker.Listing?
  {
    hide CreateClaim, MarkClaimDeleting;
  }

  /** Work that was superseded is not forgotten: dropping it writes nothing, and the
      loop does not rest again before another listing, or an attempt at one. */
  lemma {:induction false} DiscardedWorkIsListedAgain(cs: seq<Core>, actions: seq<Action>, k: nat, j: nat)
    requires Run(cs, actions) && k < j <= |actions| && Discards(cs[k], actions[k])
    requires forall m :: k < m < j ==> !actions[m].List? && !actions[m].ListFails? && !actions[m].Crash?
    ensures cs[k + 1].tables == cs[k].tables
    ensures cs[j].permit || cs[j].worker.Listing?
    decreases j
  {
    hide Step, Discards;
    DiscardingWakes(cs[k], actions[k], cs[k + 1]);
    if k + 1 < j {
      DiscardedWorkIsListedAgain(cs, actions, k, j - 1);
      PermitLasts(cs[j - 1], actions[j - 1], cs[j]);
    }
  }
}
