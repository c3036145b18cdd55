/** What the stored rows say in every reachable state, against any provider. */
module StatusTheorems {
  import opened Wrappers
  import opened Domain
  import opened Provider
  import opened Tables
  import opened Protocol
  import opened Invariants
  import opened Guarantees
  import opened Theorems
  import opened Status
  import opened StatusSteps
  import T = Transitions

  lemma InitTells(c: Core)
    requires Init(c)
    ensures AllTells(c)
  {}

  /** In every reachable state each stored row tells the truth: status, reason,
      message, generation, times and retry state fit the rest of the row. */
  lemma {:induction false} RunsTell(cs: seq<Core>, actions: seq<Action>, k: nat)
    requires Run(cs, actions) && Init(cs[0]) && k <= |actions|
    ensures AllTells(cs[k])
  {
    hide Safe, AllTells, AllGuarded, TailOk, WakeOk, Step;
    if k == 0 {
      InitTells(cs[0]);
    } else {
      RunsTell(cs, actions, k - 1);
      RunsAreGood(cs, actions, k - 1);
      StepKeepsTells(cs[k - 1], actions[k - 1], cs[k]);
    }
  }

  lemma StoredHostTells(cs: seq<Core>, actions: seq<Action>, k: nat, h: HostId)
    requires Run(cs, actions) && Init(cs[0]) && k <= |actions| && h in cs[k].tables.hosts
    ensures HostRowTells(cs[k].tables, h, cs[k].clock)
  {
    hide HostRowTells, ClaimTells, Run, Init;
    RunsTell(cs, actions, k);
  }

  lemma StoredClaimTells(cs: seq<Core>, actions: seq<Action>, k: nat, id: HostClaimId)
    requires Run(cs, actions) && Init(cs[0]) && k <= |actions| && id in cs[k].tables.claims
    ensures var t := cs[k].tables;
            && Schema(t) && ClaimTells(RecordOf(t, id), cs[k].clock)
            && (HostOf(t, id).None? ==> forall h :: !Owns(t, h, id))
            && (forall h: HostId :: Owns(t, h, id) ==> HostOf(t, id) == Some(h))
  {
    hide HostRowTells, ClaimTells, Step, Init, WorkerOk;
    RunsTell(cs, actions, k);
    RunsAreGood(cs, actions, k);
    var t := cs[k].tables;
    forall h: HostId | Owns(t, h, id) ensures HostOf(t, id) == Some(h) { HostOfIs(t, h); }
  }

  predicate StatusIs(cs: seq<Condition>, kind: Name, status: ConditionStatus) {
    var c := Lookup(cs, kind);
    c.Some? && c.value.status == status
  }

  /** Bound tells the truth: a stored claim says Bound=True exactly when a host row
      belongs to it, and then names that host. */
  lemma BoundNamesTheHost(cs: seq<Core>, actions: seq<Action>, k: nat, id: HostClaimId)
    requires Run(cs, actions) && Init(cs[0]) && k <= |actions| && id in cs[k].tables.claims
    ensures var t := cs[k].tables;
            var row := t.claims[id];
            && (StatusIs(row.conditions, BOUND, True) <==> exists h :: Owns(t, h, id))
            && (StatusIs(row.conditions, BOUND, False) <==> !exists h :: Owns(t, h, id))
            && (forall h :: Owns(t, h, id) ==>
                  Shows(row.conditions, BOUND, True, HostAssigned, AssignedHost(h), row.generation))
  {
    hide Run, Init, AcceptedFits, ClaimReadyFits, ClaimRetryFits, GenerationFits, TimesFit, Lookup, HostOf;
    StoredClaimTells(cs, actions, k, id);
  }

  /** Accepted tells the truth: True exactly when a host was assigned; otherwise no
      verdict yet, no plan, or the provider's last answer, which the retry repeats. */
  lemma AcceptedTellsTheVerdict(cs: seq<Core>, actions: seq<Action>, k: nat, id: HostClaimId)
    requires Run(cs, actions) && Init(cs[0]) && k <= |actions| && id in cs[k].tables.claims
    ensures var t := cs[k].tables;
            var row, accepted := t.claims[id], Lookup(t.claims[id].conditions, ACCEPTED);
            && accepted.Some?
            && (accepted.value.status == True <==> exists h :: Owns(t, h, id))
            && (row.retry != NO_RETRY ==>
                  && row.retry.lastErrorKind == Some(accepted.value.reason)
                  && row.retry.lastErrorMessage == Some(accepted.value.message)
                  && accepted.value.status
                     == if accepted.value.reason == ProviderRejected then False else Unknown)
            && (!Released(row) ==>
                  (row.observedGeneration == 0 <==> accepted.value.reason == PendingEvaluation || row.generation == 0))
  {
    hide Run, Init, BoundFits, ClaimReadyFits, TimesFit, Lookup, HostOf;
    StoredClaimTells(cs, actions, k, id);
  }

  /** Retries come due: a claim's own deadline lies within a minute of the clock
      unless the provider rejected it, and then at the end of the clock's range.
      Only a live claim without a host has one. */
  lemma ClaimRetriesComeDue(cs: seq<Core>, actions: seq<Action>, k: nat, id: HostClaimId)
    requires Run(cs, actions) && Init(cs[0]) && k <= |actions| && id in cs[k].tables.claims
    ensures var t, retry := cs[k].tables, cs[k].tables.claims[id].retry;
            && (retry.nextReconcileAt.Some? ==>
                  && !Released(t.claims[id]) && (forall h :: h in t.hosts ==> t.hosts[h].claimId != id)
                  && (if retry.lastErrorKind == Some(ProviderRejected)
                      then retry.nextReconcileAt.value == I64_MAX
                      else retry.lastErrorKind == Some(ProviderUnavailable) && retry.attempt >= 1
                           && retry.nextReconcileAt.value <= cs[k].clock + 60_000))
            && (retry.nextReconcileAt.None? ==> retry == NO_RETRY)
  {
    hide Run, Init, BoundFits, ClaimReadyFits, GenerationFits, TimesFit, Lookup, HostOf;
    StoredClaimTells(cs, actions, k, id);
  }

  /** The same for hosts, in both loops: a deadline lies within a minute, within a
      second after a lost response, or at the end of the clock's range; the last
      only for a released claim whose host the provider rejected or disowned. */
  lemma HostRetriesComeDue(cs: seq<Core>, actions: seq<Action>, k: nat, h: HostId)
    requires Run(cs, actions) && Init(cs[0]) && k <= |actions| && h in cs[k].tables.hosts
    ensures var t, retry := cs[k].tables, cs[k].tables.hosts[h].retry;
            && t.hosts[h].claimId in t.claims
            && (retry.nextReconcileAt.Some? ==>
                  match retry.lastErrorKind
                  case Some(ProviderUnavailable) => retry.nextReconcileAt.value <= cs[k].clock + 60_000
                  case Some(CreateOutcomeUnknown) => retry.nextReconcileAt.value <= cs[k].clock + 1_000
                  case Some(DeleteOutcomeUnknown) => retry.nextReconcileAt.value <= cs[k].clock + 1_000
                  case Some(kind) =>
                    && kind in {ProviderRejected, ProviderOwnershipConflict}
                    && Released(t.claims[t.hosts[h].claimId]) && retry.nextReconcileAt.value == I64_MAX
                  case None => false)
            && (retry.nextReconcileAt.None? ==> retry == NO_RETRY || t.hosts[h].phase == HostPhase.Failed)
  {
    hide Run, Init, Lookup, HostConditionFits, PhaseFits;
    StoredHostTells(cs, actions, k, h);
  }

  /** A host's Ready tells the truth: True only in phase Ready, or while it is being
      deleted; and in phase Ready it is True unless a failed lookup is pending. */
  lemma HostReadyTellsThePhase(cs: seq<Core>, actions: seq<Action>, k: nat, h: HostId)
    requires Run(cs, actions) && Init(cs[0]) && k <= |actions| && h in cs[k].tables.hosts
    ensures var t, row := cs[k].tables, cs[k].tables.hosts[h];
            && row.claimId in t.claims
            && (ReadyIs(row.conditions, True) ==>
                  && row.resourceId.Some?
                  && (row.phase == HostPhase.Ready
                      || (row.phase == HostPhase.Deleting && Released(t.claims[row.claimId]))))
            && (row.phase == HostPhase.Ready ==>
                  && row.resourceId.Some?
                  && (ReadyIs(row.conditions, True) || (ReadyIs(row.conditions, Unknown) && row.retry != NO_RETRY)))
            && (row.phase == HostPhase.Failed ==>
                  && ReadyIs(row.conditions, False)
                  && Lookup(row.conditions, READY).value.reason in {ProviderRejected, ProviderOwnershipConflict})
            && (row.phase == HostPhase.Deleting && !Released(t.claims[row.claimId]) ==> !ReadyIs(row.conditions, True))
  {
    hide Run, Init, Lookup;
    StoredHostTells(cs, actions, k, h);
  }

  /** The claim says what the host says: after a status of a bound claim is stored,
      its Ready condition mirrors that of its host's stored row. */
  lemma ReadyIsMirrored(cs: seq<Core>, actions: seq<Action>, k: nat)
    requires Run(cs, actions) && Init(cs[0]) && k < |actions| && actions[k] == DoPersist
    ensures At(cs[k], DoPersist)
    ensures var claim, t, u := cs[k].worker.point.claim, cs[k].tables, cs[k + 1].tables;
            && u.hosts == t.hosts
            && (if Current(t, claim) then
                  && claim.id in u.claims
                  && (forall h :: Owns(u, h, claim.id) ==>
                        Mirrors(u.claims[claim.id].conditions, u.hosts[h].conditions))
                else u == t)
  {
    hide Safe, AllGuarded, TailOk, WakeOk, ClaimTells, HostTells, Mirrors;
    RunsTell(cs, actions, k);
    RunsAreGood(cs, actions, k);
    assert Step(cs[k], actions[k], cs[k + 1]);
    var claim, t := cs[k].worker.point.claim, cs[k].tables;
    if Current(t, claim) {
      PersistingIs(cs[k]);
      forall h: HostId | Owns(t, h, claim.id) ensures claim.hostId == Some(h) { HostOfIs(t, h); }
    }
  }

  /** A released claim says so: its Ready is False, for its deletion or because its
      resource turned out to be another's; and no time in a row is in the future. */
  lemma ReleasedSaysSo(cs: seq<Core>, actions: seq<Action>, k: nat, id: HostClaimId)
    requires Run(cs, actions) && Init(cs[0]) && k <= |actions| && id in cs[k].tables.claims
    ensures var row := cs[k].tables.claims[id];
            var ready := Lookup(row.conditions, READY);
            && ready.Some?
            && (Released(row) ==>
                  && ready.value.status == False && row.observedGeneration == row.generation
                  && ready.value.reason in {DeletionRequested, ProviderOwnershipConflict}
                  && row.createdAt <= row.deletionTimestamp.value <= cs[k].clock)
            && (ready.value.reason == DeletionRequested ==> Released(row))
            && row.createdAt <= ready.value.lastTransitionAt <= cs[k].clock
  {
    hide Run, Init, BoundFits, AcceptedFits, ClaimRetryFits, Lookup, HostOf;
    StoredClaimTells(cs, actions, k, id);
  }

  /* ---------- idle observations ---------- */

  lemma StableChangesNothing(claim: ClaimRecord, host: HostRecord, r: ProviderResource, clock: Timestamp)
    requires HostTells(host.row, false, clock)
    ensures T.IsStable(host.row, r)
       <==> T.ApplyObservation(claim, host, r, clock).host.row == host.row.(observedAt := Some(clock))
  {
    hide SetCondition, Lookup, T.SetOn;
    if T.IsStable(host.row, r) {
      var c := Lookup(host.row.conditions, READY).value;
      T.SetConditionChanges(host.row.conditions,
                            Condition(READY, c.status, c.reason, c.message, 1, clock));
      UnchangedList(host.row.conditions, Condition(READY, c.status, c.reason, c.message, 1, clock));
      assert T.SetOn(host.row.conditions, READY, c.status, c.reason, c.message, 1, clock) == host.row.conditions by {
        AsSet(host.row.conditions, c.status, c.reason, c.message, clock);
      }
    }
  }

  lemma UnchangedList(cs: seq<Condition>, next: Condition)
    ensures !SetCondition(cs, next).changed ==> SetCondition(cs, next).conditions == cs
  {}

  lemma AsSet(cs: seq<Condition>, status: ConditionStatus, reason: Reason, message: Message, now: Timestamp)
    ensures T.SetOn(cs, READY, status, reason, message, 1, now)
         == SetCondition(cs, Condition(READY, status, reason, message, 1, now)).conditions
  {}

  /** Idle means nothing changed: an observation of a live host that does not
      contradict its record reports no progress exactly when the row about to be
      stored is the stored one but for the time of observation. */
  lemma IdleObservationChangesNothing(cs: seq<Core>, actions: seq<Action>, k: nat, r: ProviderResource)
    requires Run(cs, actions) && Init(cs[0]) && k < |actions| && actions[k] == DoObserve(Ok(Present(r)))
    requires At(cs[k], actions[k]) && cs[k].worker.pass.live
    requires cs[k].worker.point.host.row.resourceId in {None, Some(r.id)}
    ensures var c, d := cs[k], cs[k + 1];
            var h := c.worker.point.host.id;
            && h in c.tables.hosts && d.tables == c.tables
            && d.worker.Busy? && d.worker.point.Save? && d.worker.point.after.ThenPersist?
            && (d.worker.point.after.result == Idle
                <==> d.worker.point.host == HostRecord(h, c.tables.hosts[h].(observedAt := Some(c.clock))))
  {
    hide Safe, AllGuarded, TailOk, WakeOk, AllTells, HostTells, T.IsStable, T.ApplyObservation;
    RunsTell(cs, actions, k);
    RunsAreGood(cs, actions, k);
    assert Step(cs[k], actions[k], cs[k + 1]);
    CopiesTell(cs[k]);
    ObservedRow(cs[k]);
    StableChangesNothing(cs[k].worker.point.claim, cs[k].worker.point.host, r, cs[k].clock);
    T.ObservationShows(cs[k].worker.point.claim, cs[k].worker.point.host, r, cs[k].clock);
  }

  lemma ObservedRow(c: Core)
    requires Safe(c) && c.worker.Busy? && c.worker.point.Observe?
    ensures var host := c.worker.point.host; host.id in c.tables.hosts && c.tables.hosts[host.id] == host.row
  {
    hide TablesOk, PassOk;
  }
}
