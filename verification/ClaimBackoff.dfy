/** The backoff of a claim without a host over whole runs, while its selections fail. */
module ClaimBackoff {
  import opened Wrappers
  import opened Domain
  import opened Provider
  import opened Tables
  import opened Protocol
  import opened Invariants
  import opened Guarantees
  import opened Steps
  import opened Theorems
  import opened Backoff
  import T = Transitions

  /* ---------- the records ahead ---------- */

  /** The record of this claim that a pass still has ahead, or is at, is as stored
      unless the claim was released since. */
  ghost predicate AheadIsCurrent(t: Tables, p: Pass, id: HostClaimId) {
    forall k :: 0 <= k < |p.snapshot| && (p.live ==> p.i <= k) && p.snapshot[k].id == id && id in t.claims ==>
      Released(t.claims[id]) || t.claims[id] == p.snapshot[k].row
  }

  ghost predicate RecordIsCurrent(c: Core, id: HostClaimId) {
    c.worker.Busy? ==> AheadIsCurrent(c.tables, c.worker.pass, id)
  }

  /** What one step may do to the row of a live claim. */
  lemma ClaimRowMoves(c: Core, a: Action, c': Core, id: HostClaimId)
    requires Safe(c) && Step(c, a, c') && id in c'.tables.claims && !Released(c'.tables.claims[id])
    requires id in c.tables.claims
    ensures || c'.tables.claims[id] == c.tables.claims[id]
            || (At(c, a) && (a.DoPersist? || a.DoEnsure?) && c.worker.point.claim.id == id)
  {
    hide SetCondition, AfterSaving, AfterObserve, AfterEnsure, AfterScan, AfterFetch, AfterPersist, AfterSelect,
         AfterFinalize, AfterCreate, AfterDelete, AfterList, WorkerOk, Schema;
    StepOnTables(c, a, c');
    if a.DoPersist? || a.DoEnsure? { CallsAreAt(c, a, c'); }
  }

  lemma CallsAreAt(c: Core, a: Action, c': Core)
    requires Step(c, a, c') && (a.DoPersist? || a.DoEnsure? || a.DoSelect?)
    ensures At(c, a)
    ensures a.DoPersist? ==> c' == AfterPersist(c)
    ensures a.DoEnsure? ==> c' == AfterEnsure(c, a.newHost)
    ensures a.DoSelect? ==> c' == AfterSelect(c, a.selected)
  {}

  lemma EnsureEndsOrKeeps(c: Core, h: HostId)
    requires At(c, DoEnsure(h))
    ensures var d := AfterEnsure(c, h); d.worker.Busy? ==> d.tables == c.tables
  {}

  lemma ListedIsCurrent(t: Tables, s: seq<ClaimRecord>, p: Pass, id: HostClaimId)
    requires IsListing(t, s) && p.snapshot == s
    ensures AheadIsCurrent(t, p, id)
  {
    forall k | 0 <= k < |s| && s[k].id == id ensures id in t.claims && t.claims[id] == s[k].row {
      assert s[k] == RecordOf(t, s[k].id);
    }
  }

  /** The record the pass has reached is that of the claim in hand. */
  lemma InHand(c: Core)
    requires Safe(c) && c.worker.Busy?
    requires c.worker.point.Persist? || c.worker.point.Select? || c.worker.point.Ensure? || c.worker.point.Save?
    ensures var p, claim := c.worker.pass, c.worker.point.claim;
            && p.i < |p.snapshot| && p.snapshot[p.i].id == claim.id && claim.id in c.tables.claims
            && (p.live <==> claim.row.deletionTimestamp.None?)
            && (claim.hostId.Some? ==> Owns(c.tables, claim.hostId.value, claim.id))
            && (c.worker.point.Select? ==> p.live && claim == p.snapshot[p.i] && claim.hostId.None?)
            && (c.worker.point.Persist? && c.worker.point.result == Idle ==> p.live)
            && (c.worker.point.Save? ==> claim.hostId.Some?)
  {
    hide TablesOk, LiveHostOk, DeletionsFirst;
    assert Agrees(c.tables, c.worker.pass.snapshot[c.worker.pass.i]);
  }

  lemma SnapshotIsOfClaims(c: Core)
    requires Safe(c) && c.worker.Busy?
    ensures var p := c.worker.pass;
            && (forall k :: 0 <= k < |p.snapshot| ==> p.snapshot[k].id in c.tables.claims)
            && (forall j, k :: 0 <= j < k < |p.snapshot| ==> p.snapshot[j].id != p.snapshot[k].id)
  {
    hide TablesOk, PointOk, DeletionsFirst;
    var p := c.worker.pass;
    forall k | 0 <= k < |p.snapshot| ensures p.snapshot[k].id in c.tables.claims {
      assert Agrees(c.tables, p.snapshot[k]);
    }
  }

  lemma PersistMovesOn(c: Core)
    requires At(c, DoPersist)
    ensures var d := AfterPersist(c);
            d.worker.Busy? ==>
              c.worker.point.result == Idle && d.worker.pass == c.worker.pass.(i := c.worker.pass.i + 1)
  {}

  /** In every reachable state the records ahead are up to date. */
  lemma StepKeepsRecord(c: Core, a: Action, c': Core, id: HostClaimId)
    requires Safe(c) && RecordIsCurrent(c, id) && Step(c, a, c')
    ensures RecordIsCurrent(c', id)
  {
    hide Safe, Step, Reports, AfterPersist, AfterEnsure;
    if c'.worker.Busy? && id in c'.tables.claims && !Released(c'.tables.claims[id]) {
      if a.List? {
        ListStarts(c, a, c');
        ListedIsCurrent(c.tables, a.snapshot, c'.worker.pass, id);
      } else {
        PassMoves(c, a, c');
        SnapshotIsOfClaims(c);
        if id in c.tables.claims {
          ClaimRowMoves(c, a, c', id);
          if c'.tables.claims[id] != c.tables.claims[id] {
            CallsAreAt(c, a, c');
            InHand(c);
            if a.DoPersist? { PersistMovesOn(c); } else { EnsureEndsOrKeeps(c, a.newHost); }
          }
        }
      }
    }
  }

  lemma ListStarts(c: Core, a: Action, c': Core)
    requires Step(c, a, c') && a.List?
    ensures c'.worker.Busy? && c'.worker.pass.snapshot == a.snapshot && c'.tables == c.tables
    ensures IsListing(c.tables, a.snapshot)
  {}

  lemma PassMoves(c: Core, a: Action, c': Core)
    requires Step(c, a, c') && c'.worker.Busy? && !a.List?
    ensures c.worker.Busy?
    ensures var p, q := c.worker.pass, c'.worker.pass;
            q == p || q == p.(i := p.i + 1) || (!p.live && q == p.(live := true, i := 0))
  {
    hide Step, Reports, Weight;
    StaysBusy(c, a, c');
    if IsEnvironment(a) { EnvironmentKeepsPass(c, a, c'); } else { WorkIsWorkStep(c, a, c'); }
  }

  lemma StaysBusy(c: Core, a: Action, c': Core)
    requires Step(c, a, c') && c'.worker.Busy? && !a.List?
    ensures c.worker.Busy?
  {}

  lemma {:induction false} RecordsAreCurrent(cs: seq<Core>, actions: seq<Action>, k: nat, id: HostClaimId)
    requires Run(cs, actions) && Init(cs[0]) && k <= |actions|
    ensures RecordIsCurrent(cs[k], id)
  {
    hide Safe, AllGuarded, TailOk, WakeOk, Step, RecordIsCurrent;
    if k == 0 {
      assert RecordIsCurrent(cs[0], id) by { NothingAhead(cs[0], id); }
    } else {
      RecordsAreCurrent(cs, actions, k - 1, id);
      RunsAreGood(cs, actions, k - 1);
      StepKeepsRecord(cs[k - 1], actions[k - 1], cs[k], id);
    }
  }

  lemma NothingAhead(c: Core, id: HostClaimId)
    requires !c.worker.Busy?
    ensures RecordIsCurrent(c, id)
  {}

  /* ---------- one step ---------- */

  ghost predicate LiveUnbound(t: Tables, id: HostClaimId) {
    && id in t.claims && !Released(t.claims[id])
    && forall h :: h in t.hosts ==> t.hosts[h].claimId != id
  }

  /** Nothing is about to be written for this claim but one more failure. */
  ghost predicate OnlySelecting(c: Core, id: HostClaimId) {
    && LiveUnbound(c.tables, id)
    && (c.worker.Busy? && c.worker.point.Persist? && c.worker.point.claim.id == id ==>
          OneMoreFailure(c.tables.claims[id].retry, c.worker.point.claim.row.retry, c.worker.pass.now))
    && (c.worker.Busy? && c.worker.point.Ensure? ==> c.worker.point.claim.id != id)
  }

  predicate Selects(c: Core, a: Action, id: HostClaimId) {
    a.DoSelect? && c.worker.Busy? && c.worker.point.Select? && c.worker.point.claim.id == id
  }

  predicate SelectionFails(a: Action)
    requires a.DoSelect?
  {
    a.selected.Err? && a.selected.error.Transient?
  }

  predicate StoresClaim(c: Core, a: Action, id: HostClaimId) {
    a.DoPersist? && c.worker.Busy? && c.worker.point.Persist? && c.worker.point.claim.id == id
  }

  lemma NewHostsAreEnsured(c: Core, a: Action, c': Core, id: HostClaimId)
    requires Safe(c) && Step(c, a, c') && LiveUnbound(c.tables, id)
    requires !(At(c, a) && a.DoEnsure? && c.worker.point.claim.id == id)
    ensures forall h :: h in c'.tables.hosts ==> c'.tables.hosts[h].claimId != id
  {
    hide SetCondition, AfterSaving, AfterObserve, AfterEnsure, AfterScan, AfterFetch, AfterPersist, AfterSelect,
         AfterFinalize, AfterCreate, AfterDelete, AfterList, WorkerOk, Schema;
    StepOnTables(c, a, c');
    if a.DoEnsure? { CallsAreAt(c, a, c'); }
  }

  /** A status or an assignment is only prepared by a save or a selection. */
  lemma PointComesFrom(c: Core, a: Action, c': Core)
    requires Step(c, a, c') && c'.worker.Busy? && (c'.worker.point.Persist? || c'.worker.point.Ensure?)
    ensures || c'.worker == c.worker || a.DoSelect?
            || (At(c, a) && a.DoSave? && c'.worker.point.Persist? && c'.worker.point.claim == c.worker.point.claim)
  {
    hide SaveHost, EnsureHost, FinalizeClaim, SaveClaimStatus, CreateClaim, MarkClaimDeleting, T.MarkUnsatisfiable,
         T.ScheduleClaimError, OnLiveObservation, OnDeletingObservation, OnCreation, OnDeletion;
    ObservationIsSaved(c, a);
  }

  lemma ObservationIsSaved(c: Core, a: Action)
    ensures At(c, a) && a.DoObserve? ==>
              var next := AfterObserve(c, a.observed).worker.point; next.Save? || next.Finalize?
  {
    hide SetCondition;
  }

  lemma SelectionPoint(claim: ClaimRecord, error: ProviderError, nowMs: i64, now: Timestamp)
    requires error.Transient?
    ensures OneMoreFailure(claim.row.retry, T.ScheduleClaimError(claim, error, nowMs, now).row.retry, nowMs)
  {
    hide SetCondition, RetryDeadline;
  }

  lemma FailedSelection(c: Core, a: Action, c': Core, id: HostClaimId)
    requires Safe(c) && Step(c, a, c') && OnlySelecting(c, id) && RecordIsCurrent(c, id) && a.DoSelect?
    requires Selects(c, a, id) ==> SelectionFails(a)
    ensures OnlySelecting(c', id)
  {
    hide Safe, Step, LiveUnbound, OneMoreFailure, T.MarkUnsatisfiable, T.ScheduleClaimError;
    CallsAreAt(c, a, c');
    InHand(c);
    UnsatisfiableIsSame(c.worker.point.claim, c.clock);
    if Selects(c, a, id) {
      StillLive(c, id);
      SelectionPoint(c.worker.point.claim, a.selected.error, c.worker.pass.now, c.clock);
    }
  }

  lemma StillLive(c: Core, id: HostClaimId)
    requires LiveUnbound(c.tables, id)
    ensures id in c.tables.claims && !Released(c.tables.claims[id])
  {}

  lemma UnsatisfiableIsSame(claim: ClaimRecord, now: Timestamp)
    ensures T.MarkUnsatisfiable(claim, now).claim.id == claim.id
  {}

  lemma SelectingGoesOn(c: Core, a: Action, c': Core, id: HostClaimId)
    requires Safe(c) && Step(c, a, c') && OnlySelecting(c, id) && RecordIsCurrent(c, id)
    requires Selects(c, a, id) ==> SelectionFails(a)
    requires !StoresClaim(c, a, id) && id in c'.tables.claims && !Released(c'.tables.claims[id])
    ensures OnlySelecting(c', id) && c'.tables.claims[id] == c.tables.claims[id]
  {
    hide Safe, Step, OneMoreFailure, RecordIsCurrent;
    ClaimRowMoves(c, a, c', id);
    NewHostsAreEnsured(c, a, c', id);
    if a.DoSelect? {
      FailedSelection(c, a, c', id);
    } else if c'.worker.Busy? && (c'.worker.point.Persist? || c'.worker.point.Ensure?) {
      PointComesFrom(c, a, c');
      if c'.worker != c.worker { InHand(c); }
    }
  }

  lemma StoringSelection(c: Core, a: Action, c': Core, id: HostClaimId)
    requires Safe(c) && Step(c, a, c') && OnlySelecting(c, id) && StoresClaim(c, a, id)
    ensures OnlySelecting(c', id)
    ensures OneMoreFailure(c.tables.claims[id].retry, c'.tables.claims[id].retry, c.worker.pass.now)
  {
    hide Safe, Step, OneMoreFailure;
    CallsAreAt(c, a, c');
    InHand(c);
    CurrentIsLive(c, id);
  }

  lemma CurrentIsLive(c: Core, id: HostClaimId)
    requires Safe(c) && StoresClaim(c, DoPersist, id) && LiveUnbound(c.tables, id)
    ensures Current(c.tables, c.worker.point.claim)
  {
    hide TablesOk;
    assert Agrees(c.tables, c.worker.pass.snapshot[c.worker.pass.i]);
  }

  /* ---------- over runs ---------- */

  /** The clock readings of the passes that stored a failed selection of this claim. */
  function SelectionTimes(cs: seq<Core>, actions: seq<Action>, i: nat, j: nat, id: HostClaimId): seq<i64>
    requires |cs| == |actions| + 1 && i <= j <= |actions|
  {
    if i == j then []
    else
      SelectionTimes(cs, actions, i, j - 1, id)
      + (if StoresClaim(cs[j - 1], actions[j - 1], id) then [cs[j - 1].worker.pass.now] else [])
  }

  /** The backoff of a claim is exact in every run: while it is live and has no host
      and each selection for it fails, with anything happening in between, it gets no
      host, its stored attempt counts the failures and its stored deadline lies the
      capped power of two after the last of them; without a failure nothing of its
      row changes. */
  lemma {:induction false} ClaimBackoffOverRuns(cs: seq<Core>, actions: seq<Action>, i: nat, j: nat, id: HostClaimId)
    requires Run(cs, actions) && Init(cs[0]) && i <= j <= |actions| && LiveUnbound(cs[i].tables, id)
    requires cs[i].worker.Busy? && (cs[i].worker.point.Persist? || cs[i].worker.point.Ensure?) ==>
               cs[i].worker.point.claim.id != id
    requires forall k :: i <= k <= j ==> id in cs[k].tables.claims && !Released(cs[k].tables.claims[id])
    requires forall k :: i <= k < j && Selects(cs[k], actions[k], id) ==> SelectionFails(actions[k])
    ensures OnlySelecting(cs[j], id)
    ensures var times := SelectionTimes(cs, actions, i, j, id);
            var was, now := cs[i].tables.claims[id].retry, cs[j].tables.claims[id].retry;
            && now.attempt == Min(was.attempt + |times|, U32_MAX)
            && (times == [] ==> cs[j].tables.claims[id] == cs[i].tables.claims[id])
            && (times != [] ==>
                  now.nextReconcileAt
                  == Some(Saturate(times[|times| - 1] + Min(1_000 * Pow2(Min(now.attempt, 6)), 60_000))))
    decreases j
  {
    hide Safe, AllGuarded, TailOk, WakeOk, Step, RetryDeadline, Pow2, Init, RecordIsCurrent;
    if i < j {
      ClaimBackoffOverRuns(cs, actions, i, j - 1, id);
      RunsAreGood(cs, actions, j - 1);
      RecordsAreCurrent(cs, actions, j - 1, id);
      var c, a, c' := cs[j - 1], actions[j - 1], cs[j];
      if StoresClaim(c, a, id) {
        StoringSelection(c, a, c', id);
        T.DeadlineIsCapped(c.worker.pass.now, c'.tables.claims[id].retry.attempt);
      } else {
        SelectingGoesOn(c, a, c', id);
      }
    }
  }
}
