/** The backoff of a host over whole runs, while its lookups fail. */
module Backoff {
  import opened Wrappers
  import opened Domain
  import opened Provider
  import opened Tables
  import opened Protocol
  import opened Invariants
  import opened Guarantees
  import opened Theorems
  import T = Transitions

  /** The attempt and deadline after one more failure in a pass of this reading. */
  predicate OneMoreFailure(before: RetryState, after: RetryState, nowMs: i64) {
    && after.attempt == SaturatingIncrement(before.attempt)
    && after.nextReconcileAt == Some(RetryDeadline(nowMs, after.attempt))
  }

  /** The worker does not handle the host, or is about to look it up, or to store
      the failure of the lookup. */
  ghost predicate OnlyLooking(c: Core, h: HostId) {
    Handling(c) == Some(h) ==>
      && h in c.tables.hosts
      && (c.worker.point.Observe? ==> c.worker.point.host.row == c.tables.hosts[h])
      && (c.worker.point.Save? ==>
            && c.worker.point.after != ThenCreate && c.worker.point.after != ThenDelete
            && c.worker.point.host.row.resourceId == c.tables.hosts[h].resourceId
            && OneMoreFailure(c.tables.hosts[h].retry, c.worker.point.host.row.retry, c.worker.pass.now))
      && !c.worker.point.Create? && !c.worker.point.Delete?
  }

  predicate LooksUp(c: Core, a: Action, h: HostId) {
    a.DoObserve? && Handling(c) == Some(h)
  }

  predicate Stores(c: Core, a: Action, h: HostId) {
    a.DoSave? && c.worker.Busy? && Handling(c) == Some(h)
  }

  predicate Fails(a: Action)
    requires a.DoObserve?
  {
    a.observed.Err? && a.observed.error.Transient?
  }

  /* ---------- one step ---------- */

  lemma FailedLookup(c: Core, obs: Observed, h: HostId)
    requires Safe(c) && At(c, DoObserve(obs)) && OnlyLooking(c, h)
    requires Handling(c) == Some(h) ==> Fails(DoObserve(obs))
    ensures OnlyLooking(AfterObserve(c, obs), h)
  {
    hide Safe, SetCondition, RetryDeadline;
    if Handling(c) == Some(h) {
      var point := c.worker.point;
      FailurePoint(point.claim, point.host, obs, c.worker.pass.now, c.clock, c.worker.pass.live);
    } else {
      KeepsHost(c.worker.point.claim, c.worker.point.host, obs, c.worker.pass.now, c.clock, c.worker.pass.live);
    }
  }

  lemma FailurePoint(claim: ClaimRecord, host: HostRecord, obs: Observed, nowMs: i64, now: Timestamp, live: bool)
    requires Fails(DoObserve(obs))
    ensures var next := if live then OnLiveObservation(claim, host, obs, nowMs, now)
                        else OnDeletingObservation(claim, host, obs, nowMs, now);
            && next.Save? && next.after != ThenCreate && next.after != ThenDelete && next.host.id == host.id
            && next.host.row.resourceId == host.row.resourceId
            && OneMoreFailure(host.row.retry, next.host.row.retry, nowMs)
  {
    hide SetCondition, RetryDeadline;
  }

  lemma KeepsHost(claim: ClaimRecord, host: HostRecord, obs: Observed, nowMs: i64, now: Timestamp, live: bool)
    ensures var next := if live then OnLiveObservation(claim, host, obs, nowMs, now)
                        else OnDeletingObservation(claim, host, obs, nowMs, now);
            (next.Save? && next.host.id == host.id) || next.Finalize?
  {
    hide SetCondition, RetryDeadline;
  }

  /** Storing a failure succeeds, writes its retry state, and is the end of it. */
  lemma StoredFailure(c: Core, h: HostId)
    requires Safe(c) && At(c, DoSave) && OnlyLooking(c, h) && Handling(c) == Some(h)
    ensures var d := AfterSaving(c);
            && Handling(d) != Some(h) && h in d.tables.hosts
            && OneMoreFailure(c.tables.hosts[h].retry, d.tables.hosts[h].retry, c.worker.pass.now)
            && d.tables.hosts[h].claimId == c.tables.hosts[h].claimId
  {
    hide RetryDeadline, SetCondition;
    var host := c.worker.point.host;
    assert Schema(c.tables);
    assert host.row.resourceId.Some? ==> !RecordedElsewhere(c.tables, h, host.row.resourceId.value);
  }

  lemma FetchedRow(c: Core, h: HostId)
    requires At(c, DoFetch)
    ensures OnlyLooking(AfterFetch(c), h)
  {}

  lemma LookingGoesOn(c: Core, a: Action, c': Core, h: HostId, row: HostRow)
    requires Safe(c) && Step(c, a, c') && OnlyLooking(c, h) && h in c.tables.hosts && c.tables.hosts[h] == row
    requires LooksUp(c, a, h) ==> Fails(a)
    requires !Stores(c, a, h) && row.claimId in c'.tables.claims
    ensures OnlyLooking(c', h) && h in c'.tables.hosts && c'.tables.hosts[h] == row
  {
    hide Safe, Step, AfterObserve, AfterFetch, OneMoreFailure;
    SavesOnlyAtSave(c, a, c');
    HostRowIsKept(c, a, c', h, row);
    match a
    case DoObserve(obs) =>
      StepIs(c, a, c');
      FailedLookup(c, obs, h);
    case DoFetch =>
      StepIs(c, a, c');
      FetchedRow(c, h);
    case _ =>
      if Handling(c') == Some(h) { LookingStays(c, a, c', h); }
  }

  lemma StepIs(c: Core, a: Action, c': Core)
    requires Step(c, a, c')
    ensures a.DoObserve? ==> At(c, a) && c' == AfterObserve(c, a.observed)
    ensures a.DoFetch? ==> At(c, a) && c' == AfterFetch(c)
    ensures a.DoSave? ==> At(c, a) && c' == AfterSaving(c)
  {}

  lemma LookingStays(c: Core, a: Action, c': Core, h: HostId)
    requires Safe(c) && Step(c, a, c') && OnlyLooking(c, h) && Handling(c') == Some(h)
    requires !a.DoObserve? && !a.DoFetch? && !Stores(c, a, h)
    requires h in c.tables.hosts && h in c'.tables.hosts && c'.tables.hosts[h] == c.tables.hosts[h]
    ensures OnlyLooking(c', h)
  {
    hide Safe, OneMoreFailure, AfterSaving;
    HandlingMoves(c, a, c', h);
  }

  lemma StoringStep(c: Core, a: Action, c': Core, h: HostId)
    requires Safe(c) && Step(c, a, c') && OnlyLooking(c, h) && Stores(c, a, h) && h in c.tables.hosts
    ensures OnlyLooking(c', h) && h in c'.tables.hosts
    ensures c'.tables.hosts[h].claimId == c.tables.hosts[h].claimId
    ensures var was, now := c.tables.hosts[h].retry, c'.tables.hosts[h].retry;
            && now.attempt == Min(was.attempt + 1, U32_MAX)
            && now.nextReconcileAt
               == Some(Saturate(c.worker.pass.now + Min(1_000 * Pow2(Min(now.attempt, 6)), 60_000)))
  {
    hide Safe, Step, OnlyLooking, RetryDeadline, Pow2, AfterSaving;
    StepIs(c, a, c');
    StoredFailure(c, h);
    NotHandled(c', h);
    T.DeadlineIsCapped(c.worker.pass.now, c'.tables.hosts[h].retry.attempt);
  }

  /* ---------- over runs ---------- */

  /** The clock readings of the passes that stored a failure of this host. */
  function FailureTimes(cs: seq<Core>, actions: seq<Action>, i: nat, j: nat, h: HostId): seq<i64>
    requires |cs| == |actions| + 1 && i <= j <= |actions|
  {
    if i == j then []
    else
      FailureTimes(cs, actions, i, j - 1, h)
      + (if Stores(cs[j - 1], actions[j - 1], h) then [cs[j - 1].worker.pass.now] else [])
  }

  /** The backoff is exact in every run: while a host's claim lives and each lookup
      of the host fails, in either loop and with anything happening in between, its
      stored attempt counts the failures and its stored deadline lies the capped
      power of two after the last of them; without a failure nothing changes. */
  lemma {:induction false} BackoffOverRuns(cs: seq<Core>, actions: seq<Action>, i: nat, j: nat, h: HostId)
    requires Run(cs, actions) && Init(cs[0]) && i <= j <= |actions|
    requires h in cs[i].tables.hosts && Handling(cs[i]) != Some(h)
    requires forall k :: i <= k <= j ==> cs[i].tables.hosts[h].claimId in cs[k].tables.claims
    requires forall k :: i <= k < j && LooksUp(cs[k], actions[k], h) ==> Fails(actions[k])
    ensures h in cs[j].tables.hosts && cs[j].tables.hosts[h].claimId == cs[i].tables.hosts[h].claimId
    ensures OnlyLooking(cs[j], h)
    ensures var times := FailureTimes(cs, actions, i, j, h);
            var was, now := cs[i].tables.hosts[h].retry, cs[j].tables.hosts[h].retry;
            && now.attempt == Min(was.attempt + |times|, U32_MAX)
            && (times == [] ==> now == was)
            && (times != [] ==>
                  now.nextReconcileAt
                  == Some(Saturate(times[|times| - 1] + Min(1_000 * Pow2(Min(now.attempt, 6)), 60_000))))
    decreases j
  {
    hide Safe, AllGuarded, TailOk, WakeOk, Step, OnlyLooking, RetryDeadline, Pow2, Init;
    if i == j {
      NotHandled(cs[i], h);
    } else {
      BackoffOverRuns(cs, actions, i, j - 1, h);
      RunsAreGood(cs, actions, j - 1);
      var c, a, c' := cs[j - 1], actions[j - 1], cs[j];
      if Stores(c, a, h) {
        StoringStep(c, a, c', h);
      } else {
        LookingGoesOn(c, a, c', h, c.tables.hosts[h]);
      }
    }
  }

  lemma NotHandled(c: Core, h: HostId)
    requires Handling(c) != Some(h)
    ensures OnlyLooking(c, h)
  {}

  /* ---------- when a retry is due ---------- */

  /** A host is looked up exactly when its deadline, if any, has come by the reading of
      the pass, and its claim is being released or it has not failed; otherwise the
      pass goes on with the next claim. */
  lemma LookedUpExactlyWhenDue(cs: seq<Core>, actions: seq<Action>, k: nat)
    requires Run(cs, actions) && Init(cs[0]) && k < |actions| && actions[k].DoFetch?
    ensures At(cs[k], DoFetch) && cs[k].worker.point.claim.hostId.value in cs[k].tables.hosts
    ensures var was, claim, now := cs[k].worker, cs[k].worker.point.claim, cs[k].worker.pass.now;
            var host := HostRecord(claim.hostId.value, cs[k].tables.hosts[claim.hostId.value]);
            var due := host.row.retry.nextReconcileAt.None? || host.row.retry.nextReconcileAt.value <= now;
            cs[k + 1].worker
            == if due && (!was.pass.live || host.row.phase != HostPhase.Failed)
               then was.(point := Point.Observe(claim, host))
               else was.(point := Scan, pass := was.pass.(i := was.pass.i + 1))
  {
    hide Safe, AllGuarded, TailOk, WakeOk, Step, Init;
    RunsAreGood(cs, actions, k);
    StepIs(cs[k], actions[k], cs[k + 1]);
    FetchKeepsSafe(cs[k]);
  }

  /** A plan is selected for a live claim without a host exactly when its deadline, if
      any, has come by the reading of the pass. */
  lemma SelectedExactlyWhenDue(cs: seq<Core>, actions: seq<Action>, k: nat)
    requires Run(cs, actions) && k < |actions| && actions[k].ScanNext? && cs[k].worker.Busy? && cs[k].worker.pass.live
    requires cs[k].worker.pass.i < |cs[k].worker.pass.snapshot|
    requires var claim := cs[k].worker.pass.snapshot[cs[k].worker.pass.i]; !Released(claim.row) && claim.hostId.None?
    ensures var was, next := cs[k].worker, cs[k + 1].worker;
            var claim := was.pass.snapshot[was.pass.i];
            var retry := claim.row.retry;
            next == if retry.nextReconcileAt.None? || retry.nextReconcileAt.value <= was.pass.now
                    then was.(point := Select(claim))
                    else was.(point := Scan, pass := was.pass.(i := was.pass.i + 1))
  {
    assert Step(cs[k], actions[k], cs[k + 1]);
  }
}
