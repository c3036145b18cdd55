/** How the controller rewrites its copies of a claim and a host after each
    provider response.  `now` is the wall clock reading, `nowMs` the reading
    taken at the start of the pass. */
module Transitions {
  import opened Wrappers
  import opened Domain
  import opened Provider

  datatype Both = Both(claim: ClaimRecord, host: HostRecord)

  function SetOn(cs: seq<Condition>, kind: Name, status: ConditionStatus, reason: Reason, message: Message,
                 generation: u64, now: Timestamp): (r: seq<Condition>)
    ensures kind == READY ==> ReadyIs(r, status)
    ensures kind != READY ==> Lookup(r, READY) == Lookup(cs, READY)
  {
    var next := Condition(kind, status, reason, message, generation, now);
    SetConditionRefinesMapUpdate(cs, next, READY);
    SetCondition(cs, next).conditions
  }

  /** The claim copy with its Ready condition set. */
  function ClaimReady(claim: ClaimRecord, status: ConditionStatus, reason: Reason, message: Message,
                      now: Timestamp): (r: ClaimRecord)
    ensures r == claim.(row := claim.row.(conditions := r.row.conditions))
    ensures ReadyIs(r.row.conditions, status)
  {
    claim.(row := claim.row.(conditions :=
      SetOn(claim.row.conditions, READY, status, reason, message, claim.row.generation, now)))
  }

  function HostReadyCondition(row: HostRow, status: ConditionStatus, reason: Reason, message: Message,
                              now: Timestamp): (r: HostRow)
    ensures r == row.(conditions := r.conditions)
    ensures ReadyIs(r.conditions, status)
  {
    row.(conditions := SetOn(row.conditions, READY, status, reason, message, 1, now))
  }

  function PhaseOf(lifecycle: ProviderLifecycle): HostPhase {
    match lifecycle
    case Provisioning => HostPhase.Provisioning
    case Ready => HostPhase.Ready
    case Deleting => HostPhase.Deleting
  }

  /** `provider_observation_is_stable` */
  predicate IsStable(host: HostRow, resource: ProviderResource) {
    && host.phase == PhaseOf(resource.lifecycle)
    && host.resourceId == Some(resource.id)
    && host.retry == NO_RETRY
  }

  /** `apply_provider_observation` */
  function ApplyObservation(claim: ClaimRecord, host: HostRecord, resource: ProviderResource, now: Timestamp): (r: Both)
    ensures r.claim.id == claim.id && r.claim.hostId == claim.hostId
    ensures r.claim.row == claim.row.(observedGeneration := claim.row.generation, retry := NO_RETRY,
                                      conditions := r.claim.row.conditions)
    ensures r.host.id == host.id
    ensures r.host.row == host.row.(resourceId := Some(resource.id), observedAt := Some(now), retry := NO_RETRY,
                                    phase := PhaseOf(resource.lifecycle), conditions := r.host.row.conditions)
    ensures ReadyIs(r.claim.row.conditions, if resource.lifecycle == ProviderLifecycle.Ready then True else False)
  {
    var phase := PhaseOf(resource.lifecycle);
    var row := host.row.(resourceId := Some(resource.id), observedAt := Some(now), retry := NO_RETRY, phase := phase);
    var row := match resource.lifecycle
      case Provisioning => HostReadyCondition(row, False, ProviderResourceProvisioning, StillProvisioning, now)
      case Ready => HostReadyCondition(row, True, ProviderResourceReady, ResourceReady, now)
      case Deleting => HostReadyCondition(row, False, ProviderResourceDeleting, BeingDeleted, now);
    var g := claim.row.generation;
    var cs := SetOn(claim.row.conditions, ACCEPTED, True, RequirementsValid, PolicySatisfies, g, now);
    var cs := SetOn(cs, BOUND, True, HostAssigned, AssignedHost(host.id), g, now);
    var cs := if phase == HostPhase.Ready
              then SetOn(cs, READY, True, HostReady, AssignedHostReady, g, now)
              else SetOn(cs, READY, False, HostNotReady, AssignedHostNotReady, g, now);
    Both(claim.(row := claim.row.(observedGeneration := g, retry := NO_RETRY, conditions := cs)), host.(row := row))
  }

  /** `mark_provider_absent` */
  function MarkProviderAbsent(claim: ClaimRecord, host: HostRecord, now: Timestamp): Both {
    var row := host.row.(phase := HostPhase.Pending, resourceId := None, observedAt := Some(now), retry := NO_RETRY);
    Both(ClaimReady(claim, False, HostNotReady, AssignedHostHasNoResource, now),
         host.(row := HostReadyCondition(row, False, ProviderResourceAbsent, NoResource, now)))
  }

  /** `mark_outcome_unknown` */
  function MarkOutcomeUnknown(claim: ClaimRecord, host: HostRecord, kind: Reason, message: Message,
                              nowMs: i64, now: Timestamp): Both
  {
    var retry := RetryState(SaturatingIncrement(host.row.retry.attempt), Some(SaturatingAdd(nowMs, 1_000)),
                            Some(kind), Some(message));
    var row := host.row.(phase := HostPhase.Provisioning, observedAt := Some(now), retry := retry);
    Both(ClaimReady(claim, Unknown, kind, message, now),
         host.(row := HostReadyCondition(row, Unknown, kind, message, now)))
  }

  /** `mark_host_failed` */
  function MarkHostFailed(claim: ClaimRecord, host: HostRecord, reason: Reason, message: Message,
                          now: Timestamp): Both {
    var retry := host.row.retry.(nextReconcileAt := None, lastErrorKind := Some(reason),
                                 lastErrorMessage := Some(message));
    var row := host.row.(phase := HostPhase.Failed, retry := retry);
    Both(ClaimReady(claim, False, reason, message, now),
         host.(row := HostReadyCondition(row, False, reason, message, now)))
  }

  /** `schedule_claim_provider_error` */
  function ScheduleClaimError(claim: ClaimRecord, error: ProviderError, nowMs: i64, now: Timestamp): (r: ClaimRecord)
    ensures r.id == claim.id && r.hostId == claim.hostId
    ensures r.row == claim.row.(observedGeneration := claim.row.generation, retry := r.row.retry,
                                conditions := r.row.conditions)
    ensures Lookup(r.row.conditions, READY) == Lookup(claim.row.conditions, READY)
  {
    var g := claim.row.generation;
    match error
    case Definitive(m) =>
      var retry := RetryState(claim.row.retry.attempt, Some(I64_MAX), Some(ProviderRejected), Some(ProviderText(m)));
      var cs := SetOn(claim.row.conditions, ACCEPTED, False, ProviderRejected, ProviderText(m), g, now);
      claim.(row := claim.row.(observedGeneration := g, retry := retry, conditions := cs))
    case Transient(m) =>
      var attempt := SaturatingIncrement(claim.row.retry.attempt);
      var retry := RetryState(attempt, Some(RetryDeadline(nowMs, attempt)), Some(ProviderUnavailable),
                              Some(ProviderText(m)));
      var cs := SetOn(claim.row.conditions, ACCEPTED, Unknown, ProviderUnavailable, ProviderText(m), g, now);
      claim.(row := claim.row.(observedGeneration := g, retry := retry, conditions := cs))
  }

  /** `schedule_host_provider_error` */
  function ScheduleHostError(claim: ClaimRecord, host: HostRecord, error: ProviderError, nowMs: i64,
                             now: Timestamp): Both {
    match error
    case Definitive(m) => MarkHostFailed(claim, host, ProviderRejected, ProviderText(m), now)
    case Transient(m) =>
      var attempt := SaturatingIncrement(host.row.retry.attempt);
      var retry := RetryState(attempt, Some(RetryDeadline(nowMs, attempt)), Some(ProviderUnavailable),
                              Some(ProviderText(m)));
      var row := host.row.(retry := retry);
      Both(ClaimReady(claim, Unknown, ProviderUnavailable, ProviderText(m), now),
           host.(row := HostReadyCondition(row, Unknown, ProviderUnavailable, ProviderText(m), now)))
  }

  /** `schedule_host_retry_only` */
  function ScheduleRetryOnly(host: HostRecord, error: ProviderError, nowMs: i64): HostRecord {
    var attempt := SaturatingIncrement(host.row.retry.attempt);
    var retry := match error
      case Definitive(m) => RetryState(attempt, Some(I64_MAX), Some(ProviderRejected), Some(ProviderText(m)))
      case Transient(m) => RetryState(attempt, Some(RetryDeadline(nowMs, attempt)), Some(ProviderUnavailable),
                                      Some(ProviderText(m)));
    host.(row := host.row.(retry := retry))
  }

  /* ---------- an unsatisfiable claim ---------- */

  datatype Marked = Marked(claim: ClaimRecord, changed: bool)

  /** The `Ok(None)` arm of `reconcile_unbound_claim`. */
  function MarkUnsatisfiable(claim: ClaimRecord, now: Timestamp): Marked {
    var g := claim.row.generation;
    var a := SetCondition(claim.row.conditions, Condition(ACCEPTED, False, Unsatisfiable, NoPlanSatisfies, g, now));
    var b := SetCondition(a.conditions, Condition(BOUND, False, HostPending, NoHostAssigned, g, now));
    var c := SetCondition(b.conditions, Condition(READY, False, HostNotReady, NoReadyHost, g, now));
    Marked(claim.(row := claim.row.(observedGeneration := g, conditions := c.conditions, retry := NO_RETRY)),
           a.changed || b.changed || c.changed)
  }

  predicate ShowsUnsatisfiable(row: ClaimRow) {
    && Shows(row.conditions, ACCEPTED, False, Unsatisfiable, NoPlanSatisfies, row.generation)
    && Shows(row.conditions, BOUND, False, HostPending, NoHostAssigned, row.generation)
    && Shows(row.conditions, READY, False, HostNotReady, NoReadyHost, row.generation)
  }

  lemma SetConditionChanges(cs: seq<Condition>, next: Condition)
    ensures SetCondition(cs, next).changed
       <==> !Shows(cs, next.kind, next.status, next.reason, next.message, next.observedGeneration)
    ensures Shows(SetCondition(cs, next).conditions, next.kind, next.status, next.reason, next.message,
                  next.observedGeneration)
  {
    SetConditionRefinesMapUpdate(cs, next, next.kind);
  }

  /** Marking reports a change exactly when the claim did not show the verdict
      yet, so marking a second time is silent whatever the time. */
  lemma MarkUnsatisfiableSettles(claim: ClaimRecord, now: Timestamp)
    ensures var m := MarkUnsatisfiable(claim, now);
            && (m.changed <==> !ShowsUnsatisfiable(claim.row))
            && ShowsUnsatisfiable(m.claim.row)
            && ReadyIs(m.claim.row.conditions, False)
            && m.claim == claim.(row := claim.row.(observedGeneration := claim.row.generation, retry := NO_RETRY,
                                                   conditions := m.claim.row.conditions))
  {
    var g := claim.row.generation;
    var x := Condition(ACCEPTED, False, Unsatisfiable, NoPlanSatisfies, g, now);
    var y := Condition(BOUND, False, HostPending, NoHostAssigned, g, now);
    var z := Condition(READY, False, HostNotReady, NoReadyHost, g, now);
    var cs := claim.row.conditions;
    var a := SetCondition(cs, x).conditions;
    var b := SetCondition(a, y).conditions;
    SetConditionChanges(cs, x);
    SetConditionChanges(a, y);
    SetConditionChanges(b, z);
    SetConditionRefinesMapUpdate(cs, x, BOUND);
    SetConditionRefinesMapUpdate(cs, x, READY);
    SetConditionRefinesMapUpdate(a, y, ACCEPTED);
    SetConditionRefinesMapUpdate(a, y, READY);
    SetConditionRefinesMapUpdate(b, z, ACCEPTED);
    SetConditionRefinesMapUpdate(b, z, BOUND);
  }

  /* ---------- what the copies show afterwards ---------- */

  /** The entry is as old as it was, or new. */
  predicate StampKept(before: seq<Condition>, after: seq<Condition>, kind: Name, now: Timestamp) {
    Stamp(after, kind) == Some(now) || (Stamp(before, kind).Some? && Stamp(after, kind) == Stamp(before, kind))
  }

  /** The list shows what was set in this condition. */
  predicate Took(before: seq<Condition>, after: seq<Condition>, next: Condition) {
    && Shows(after, next.kind, next.status, next.reason, next.message, next.observedGeneration)
    && StampKept(before, after, next.kind, next.lastTransitionAt)
  }

  lemma SetShows(cs: seq<Condition>, next: Condition)
    ensures Took(cs, SetCondition(cs, next).conditions, next)
  {
    SetConditionRefinesMapUpdate(cs, next, next.kind);
  }

  lemma SetThree(cs: seq<Condition>, accepted: Condition, bound: Condition, ready: Condition)
    requires accepted.kind == ACCEPTED && bound.kind == BOUND && ready.kind == READY
    ensures var all := SetCondition(SetCondition(SetCondition(cs, accepted).conditions, bound).conditions,
                                    ready).conditions;
            Took(cs, all, accepted) && Took(cs, all, bound) && Took(cs, all, ready)
  {
    hide SetCondition, Lookup;
    SettingShows();
  }

  /** Both records are Ready exactly when the resource is, each with the reason, and
      the claim is accepted and bound to this host. */
  predicate ShowsObserved(claim: ClaimRecord, host: HostRecord, lifecycle: ProviderLifecycle) {
    var cs, hs, g := claim.row.conditions, host.row.conditions, claim.row.generation;
    && Shows(cs, ACCEPTED, True, RequirementsValid, PolicySatisfies, g)
    && Shows(cs, BOUND, True, HostAssigned, AssignedHost(host.id), g)
    && match lifecycle
       case Ready =>
         && Shows(cs, READY, True, HostReady, AssignedHostReady, g)
         && Shows(hs, READY, True, ProviderResourceReady, ResourceReady, 1)
       case Provisioning =>
         && Shows(cs, READY, False, HostNotReady, AssignedHostNotReady, g)
         && Shows(hs, READY, False, ProviderResourceProvisioning, StillProvisioning, 1)
       case Deleting =>
         && Shows(cs, READY, False, HostNotReady, AssignedHostNotReady, g)
         && Shows(hs, READY, False, ProviderResourceDeleting, BeingDeleted, 1)
  }

  /** After an observation the records show what was observed. */
  lemma ObservationShows(claim: ClaimRecord, host: HostRecord, resource: ProviderResource, now: Timestamp)
    ensures var b := ApplyObservation(claim, host, resource, now);
            var cs, hs := b.claim.row.conditions, b.host.row.conditions;
            && ShowsObserved(b.claim, b.host, resource.lifecycle)
            && StampKept(host.row.conditions, hs, READY, now)
            && StampKept(claim.row.conditions, cs, ACCEPTED, now) && StampKept(claim.row.conditions, cs, BOUND, now)
            && StampKept(claim.row.conditions, cs, READY, now)
  {
    hide SetCondition, Lookup;
    var row, g := host.row, claim.row.generation;
    var accepted := Condition(ACCEPTED, True, RequirementsValid, PolicySatisfies, g, now);
    var bound := Condition(BOUND, True, HostAssigned, AssignedHost(host.id), g, now);
    match resource.lifecycle {
      case Ready =>
        SetShows(row.conditions, Condition(READY, True, ProviderResourceReady, ResourceReady, 1, now));
        SetThree(claim.row.conditions, accepted, bound,
                 Condition(READY, True, HostReady, AssignedHostReady, g, now));
      case Provisioning =>
        SetShows(row.conditions, Condition(READY, False, ProviderResourceProvisioning, StillProvisioning, 1, now));
        SetThree(claim.row.conditions, accepted, bound,
                 Condition(READY, False, HostNotReady, AssignedHostNotReady, g, now));
      case Deleting =>
        SetShows(row.conditions, Condition(READY, False, ProviderResourceDeleting, BeingDeleted, 1, now));
        SetThree(claim.row.conditions, accepted, bound,
                 Condition(READY, False, HostNotReady, AssignedHostNotReady, g, now));
    }
  }

  /** A transient error: one more attempt, the capped power of two from now. */
  predicate Postponed(before: RetryState, after: RetryState, m: Name, nowMs: i64) {
    var attempt := Min(before.attempt + 1, U32_MAX);
    after == RetryState(attempt, Some(Saturate(nowMs + Min(1_000 * Pow2(Min(attempt, 6)), 60_000))),
                        Some(ProviderUnavailable), Some(ProviderText(m)))
  }

  /** A definitive error: no deadline the clock could pass. */
  predicate Parked(attempt: u32, after: RetryState, m: Name) {
    after == RetryState(attempt, Some(I64_MAX), Some(ProviderRejected), Some(ProviderText(m)))
  }

  /** Both records show this on Ready. */
  predicate BothShow(claim: ClaimRecord, host: HostRecord, status: ConditionStatus, reason: Reason, message: Message) {
    && Shows(claim.row.conditions, READY, status, reason, message, claim.row.generation)
    && Shows(host.row.conditions, READY, status, reason, message, 1)
  }

  /** So they do when the resource is absent, the outcome unknown or the host failed. */
  lemma MarksShow(claim: ClaimRecord, host: HostRecord, reason: Reason, message: Message, nowMs: i64, now: Timestamp)
    ensures var b, g := MarkProviderAbsent(claim, host, now), claim.row.generation;
            && Shows(b.claim.row.conditions, READY, False, HostNotReady, AssignedHostHasNoResource, g)
            && Shows(b.host.row.conditions, READY, False, ProviderResourceAbsent, NoResource, 1)
    ensures var b := MarkOutcomeUnknown(claim, host, reason, message, nowMs, now);
            BothShow(b.claim, b.host, Unknown, reason, message)
    ensures var b := MarkHostFailed(claim, host, reason, message, now);
            BothShow(b.claim, b.host, False, reason, message)
  {
    hide SetCondition, Lookup;
    SettingShows();
  }

  /** A failed selection shows on Accepted and nowhere else. */
  lemma ClaimErrorShows(claim: ClaimRecord, error: ProviderError, nowMs: i64, now: Timestamp)
    ensures var cs := ScheduleClaimError(claim, error, nowMs, now).row.conditions;
            && (match error
                case Definitive(m) =>
                  Shows(cs, ACCEPTED, False, ProviderRejected, ProviderText(m), claim.row.generation)
                case Transient(m) =>
                  Shows(cs, ACCEPTED, Unknown, ProviderUnavailable, ProviderText(m), claim.row.generation))
            && StampKept(claim.row.conditions, cs, ACCEPTED, now)
            && (forall kind :: kind != ACCEPTED ==> Lookup(cs, kind) == Lookup(claim.row.conditions, kind))
  {
    hide SetCondition, Lookup;
    SettingShows();
  }

  /** A failed host call shows on the Ready condition of both records alike. */
  lemma HostErrorShows(claim: ClaimRecord, host: HostRecord, error: ProviderError, nowMs: i64, now: Timestamp)
    ensures var b := ScheduleHostError(claim, host, error, nowMs, now);
            var cs, hs := b.claim.row.conditions, b.host.row.conditions;
            && (match error
                case Definitive(m) => BothShow(b.claim, b.host, False, ProviderRejected, ProviderText(m))
                case Transient(m) => BothShow(b.claim, b.host, Unknown, ProviderUnavailable, ProviderText(m)))
            && StampKept(host.row.conditions, hs, READY, now) && StampKept(claim.row.conditions, cs, READY, now)
            && (forall kind :: kind != READY ==> Lookup(cs, kind) == Lookup(claim.row.conditions, kind))
  {
    hide SetCondition, Lookup;
    SettingShows();
  }

  /* ---------- consecutive observation failures ---------- */

  /** The host after failed observations at these times, starting as `host`. */
  function AfterFailures(claim: ClaimRecord, host: HostRecord, times: seq<(i64, Timestamp)>, m: Name): Both {
    if times == [] then Both(claim, host)
    else
      var before := AfterFailures(claim, host, times[..|times| - 1], m);
      var last := times[|times| - 1];
      ScheduleHostError(before.claim, before.host, Transient(m), last.0, last.1)
  }

  lemma DeadlineIsCapped(nowMs: i64, attempt: u32)
    ensures RetryDeadline(nowMs, attempt) == Saturate(nowMs + Min(1_000 * Pow2(Min(attempt, 6)), 60_000))
  {
    RetryDeadlineBounded(nowMs, attempt, attempt);
    Pow2Positive(Min(attempt, 6));
  }

  lemma FailureSchedules(claim: ClaimRecord, host: HostRecord, m: Name, nowMs: i64, now: Timestamp)
    ensures var retry := ScheduleHostError(claim, host, Transient(m), nowMs, now).host.row.retry;
            var attempt := SaturatingIncrement(host.row.retry.attempt);
            retry.attempt == attempt && retry.nextReconcileAt == Some(RetryDeadline(nowMs, attempt))
  {
    hide SetOn;
  }

  /** After k failures from a reset state the delay is exactly the capped power
      of two, saturating at the end of the clock's range. */
  lemma {:induction false} BackoffIsExact(claim: ClaimRecord, host: HostRecord, times: seq<(i64, Timestamp)>, m: Name)
    requires host.row.retry == NO_RETRY && times != []
    ensures var k := |times|;
            var nowMs := times[k - 1].0;
            var retry := AfterFailures(claim, host, times, m).host.row.retry;
            && retry.attempt == Min(k, U32_MAX)
            && retry.nextReconcileAt == Some(Saturate(nowMs + Min(1_000 * Pow2(Min(k, 6)), 60_000)))
  {
    hide ScheduleHostError, RetryDeadline, Pow2;
    var init, last := times[..|times| - 1], times[|times| - 1];
    if init == [] {
      assert AfterFailures(claim, host, init, m).host == host;
    } else {
      BackoffIsExact(claim, host, init, m);
    }
    var before := AfterFailures(claim, host, init, m);
    FailureSchedules(before.claim, before.host, m, last.0, last.1);
    DeadlineIsCapped(last.0, SaturatingIncrement(before.host.row.retry.attempt));
  }

  /** The claim after failed selections at these times. */
  function AfterSelections(claim: ClaimRecord, times: seq<(i64, Timestamp)>, m: Name): ClaimRecord {
    if times == [] then claim
    else
      var last := times[|times| - 1];
      ScheduleClaimError(AfterSelections(claim, times[..|times| - 1], m), Transient(m), last.0, last.1)
  }

  /** The same backoff for a claim whose selections fail, from any attempt count. */
  lemma {:induction false} ClaimBackoffIsExact(claim: ClaimRecord, times: seq<(i64, Timestamp)>, m: Name)
    requires times != []
    ensures var k := Min(claim.row.retry.attempt + |times|, U32_MAX);
            var retry := AfterSelections(claim, times, m).row.retry;
            && retry.attempt == k && retry.lastErrorKind == Some(ProviderUnavailable)
            && retry.nextReconcileAt
               == Some(Saturate(times[|times| - 1].0 + Min(1_000 * Pow2(Min(k, 6)), 60_000)))
  {
    hide RetryDeadline, Pow2, SetOn;
    var init, last := times[..|times| - 1], times[|times| - 1];
    if init == [] {
      assert AfterSelections(claim, init, m) == claim;
    } else {
      ClaimBackoffIsExact(claim, init, m);
    }
    DeadlineIsCapped(last.0, SaturatingIncrement(AfterSelections(claim, init, m).row.retry.attempt));
  }

  /** The host of a deleting claim after failed observations at these times. */
  function AfterReleaseFailures(host: HostRecord, times: seq<i64>, m: Name): HostRecord {
    if times == [] then host
    else ScheduleRetryOnly(AfterReleaseFailures(host, times[..|times| - 1], m), Transient(m), times[|times| - 1])
  }

  /** The same backoff while a claim is being released, from any earlier attempt
      count; nothing but the retry state changes. */
  lemma {:induction false} ReleaseBackoffIsExact(host: HostRecord, times: seq<i64>, m: Name)
    requires times != []
    ensures var k := Min(host.row.retry.attempt + |times|, U32_MAX);
            var after := AfterReleaseFailures(host, times, m);
            && after == host.(row := host.row.(retry := after.row.retry))
            && after.row.retry.attempt == k
            && after.row.retry.nextReconcileAt
               == Some(Saturate(times[|times| - 1] + Min(1_000 * Pow2(Min(k, 6)), 60_000)))
  {
    hide RetryDeadline, Pow2;
    var init, last := times[..|times| - 1], times[|times| - 1];
    if init == [] {
      assert AfterReleaseFailures(host, init, m) == host;
    } else {
      ReleaseBackoffIsExact(host, init, m);
    }
    DeadlineIsCapped(last, SaturatingIncrement(AfterReleaseFailures(host, init, m).row.retry.attempt));
  }
}
