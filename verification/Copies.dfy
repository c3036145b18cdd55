/** The working copies of a claim and its host that one reconciliation step
    rewrites field by field before it stores them. */
module Copies {
  import opened Wrappers
  import opened Domain
  import opened Provider
  import opened Conditions
  import T = Transitions

  method WithCondition(cs: seq<Condition>, kind: Name, status: ConditionStatus, reason: Reason, message: Message,
                       generation: u64, now: Timestamp)
    returns (r: seq<Condition>, changed: bool)
    ensures r == T.SetOn(cs, kind, status, reason, message, generation, now)
    ensures Update(r, changed) == SetCondition(cs, Condition(kind, status, reason, message, generation, now))
  {
    var list := new ConditionList(cs);
    changed := list.Set(Condition(kind, status, reason, message, generation, now));
    r := list.items;
  }

  class Working {
    var claim: ClaimRecord
    var host: HostRecord

    constructor (claim: ClaimRecord, host: HostRecord)
      ensures this.claim == claim && this.host == host
    {
      this.claim, this.host := claim, host;
    }

    /** For a claim that has no host yet. */
    constructor ForClaim(claim: ClaimRecord)
      ensures this.claim == claim
    {
      this.claim := claim;
    }

    method SetOnClaim(kind: Name, status: ConditionStatus, reason: Reason, message: Message, now: Timestamp)
      modifies `claim
      ensures claim == old(claim).(row := old(claim).row.(conditions :=
                         T.SetOn(old(claim).row.conditions, kind, status, reason, message,
                                 old(claim).row.generation, now)))
    {
      var cs, _ := WithCondition(claim.row.conditions, kind, status, reason, message, claim.row.generation, now);
      claim := claim.(row := claim.row.(conditions := cs));
    }

    method SetHostReady(status: ConditionStatus, reason: Reason, message: Message, now: Timestamp)
      modifies `host
      ensures host == old(host).(row := T.HostReadyCondition(old(host).row, status, reason, message, now))
    {
      var cs, _ := WithCondition(host.row.conditions, READY, status, reason, message, 1, now);
      host := host.(row := host.row.(conditions := cs));
    }

    /** `apply_provider_observation` */
    method ApplyObservation(resource: ProviderResource, now: Timestamp)
      modifies this
      ensures T.Both(claim, host) == T.ApplyObservation(old(claim), old(host), resource, now)
      ensures T.IsStable(host.row, resource) && host.row.observedAt == Some(now)
      ensures T.ShowsObserved(claim, host, resource.lifecycle)
      ensures claim.row.retry == NO_RETRY && claim.row.observedGeneration == claim.row.generation
    {
      hide SetCondition, Lookup, Shows, T.SetOn;
      T.ObservationShows(claim, host, resource, now);
      host := host.(row := host.row.(resourceId := Some(resource.id), observedAt := Some(now), retry := NO_RETRY));
      var phase, status, reason, message := HostPhase.Ready, True, ProviderResourceReady, ResourceReady;
      match resource.lifecycle {
        case Provisioning =>
          phase, status, reason, message := HostPhase.Provisioning, False, ProviderResourceProvisioning,
              StillProvisioning;
        case Ready =>
        case Deleting =>
          phase, status, reason, message := HostPhase.Deleting, False, ProviderResourceDeleting, BeingDeleted;
      }
      host := host.(row := host.row.(phase := phase));
      SetHostReady(status, reason, message, now);

      claim := claim.(row := claim.row.(observedGeneration := claim.row.generation, retry := NO_RETRY));
      var claimReady := phase == HostPhase.Ready;
      SetOnClaim(ACCEPTED, True, RequirementsValid, PolicySatisfies, now);
      SetOnClaim(BOUND, True, HostAssigned, AssignedHost(host.id), now);
      SetOnClaim(READY,
                 if claimReady then True else False,
                 if claimReady then HostReady else HostNotReady,
                 if claimReady then AssignedHostReady else AssignedHostNotReady, now);
    }

    /** `mark_provider_absent` */
    method MarkProviderAbsent(now: Timestamp)
      modifies this
      ensures T.Both(claim, host) == T.MarkProviderAbsent(old(claim), old(host), now)
      ensures host.row.phase == HostPhase.Pending && host.row.resourceId == None && host.row.retry == NO_RETRY
      ensures Shows(claim.row.conditions, READY, False, HostNotReady, AssignedHostHasNoResource, claim.row.generation)
      ensures Shows(host.row.conditions, READY, False, ProviderResourceAbsent, NoResource, 1)
    {
      hide SetCondition, Lookup, Shows, T.SetOn;
      T.MarksShow(claim, host, ProviderResourceAbsent, NoResource, 0, now);
      host := host.(row := host.row.(phase := HostPhase.Pending));
      host := host.(row := host.row.(resourceId := None));
      host := host.(row := host.row.(observedAt := Some(now)));
      host := host.(row := host.row.(retry := NO_RETRY));
      SetHostReady(False, ProviderResourceAbsent, NoResource, now);
      SetOnClaim(READY, False, HostNotReady, AssignedHostHasNoResource, now);
    }

    /** `mark_outcome_unknown` */
    method MarkOutcomeUnknown(kind: Reason, message: Message, nowMs: i64, now: Timestamp)
      modifies this
      ensures T.Both(claim, host) == T.MarkOutcomeUnknown(old(claim), old(host), kind, message, nowMs, now)
      ensures host.row.phase == HostPhase.Provisioning && T.BothShow(claim, host, Unknown, kind, message)
      ensures host.row.retry == RetryState(Min(old(host).row.retry.attempt + 1, U32_MAX), Some(Saturate(nowMs + 1_000)),
                                           Some(kind), Some(message))
    {
      hide SetCondition, Lookup, Shows, T.SetOn;
      T.MarksShow(claim, host, kind, message, nowMs, now);
      host := host.(row := host.row.(phase := HostPhase.Provisioning));
      host := host.(row := host.row.(observedAt := Some(now)));
      var retry := host.row.retry;
      retry := retry.(attempt := SaturatingIncrement(retry.attempt));
      retry := retry.(nextReconcileAt := Some(SaturatingAdd(nowMs, 1_000)));
      retry := retry.(lastErrorKind := Some(kind), lastErrorMessage := Some(message));
      host := host.(row := host.row.(retry := retry));
      SetHostReady(Unknown, kind, message, now);
      SetOnClaim(READY, Unknown, kind, message, now);
    }

    /** `mark_host_failed` */
    method MarkHostFailed(reason: Reason, message: Message, now: Timestamp)
      modifies this
      ensures T.Both(claim, host) == T.MarkHostFailed(old(claim), old(host), reason, message, now)
      ensures host.row.phase == HostPhase.Failed && T.BothShow(claim, host, False, reason, message)
      ensures host.row.retry.lastErrorKind == Some(reason) && forall later :: host.row.retry.IsDue(later)
    {
      hide SetCondition, Lookup, Shows, T.SetOn;
      T.MarksShow(claim, host, reason, message, 0, now);
      host := host.(row := host.row.(phase := HostPhase.Failed));
      var retry := host.row.retry.(nextReconcileAt := None);
      retry := retry.(lastErrorKind := Some(reason), lastErrorMessage := Some(message));
      host := host.(row := host.row.(retry := retry));
      SetHostReady(False, reason, message, now);
      SetOnClaim(READY, False, reason, message, now);
    }

    /** `schedule_claim_provider_error` */
    method ScheduleClaimError(error: ProviderError, nowMs: i64, now: Timestamp)
      modifies `claim
      ensures claim == T.ScheduleClaimError(old(claim), error, nowMs, now)
      ensures if error.Definitive?
              then T.Parked(old(claim).row.retry.attempt, claim.row.retry, error.message)
              else T.Postponed(old(claim).row.retry, claim.row.retry, error.message, nowMs)
      ensures Shows(claim.row.conditions, ACCEPTED, if error.Definitive? then False else Unknown,
                    if error.Definitive? then ProviderRejected else ProviderUnavailable, ProviderText(error.message),
                    claim.row.generation)
      ensures forall kind :: kind != ACCEPTED ==>
                Lookup(claim.row.conditions, kind) == Lookup(old(claim).row.conditions, kind)
    {
      hide SetCondition, Lookup, Shows, T.SetOn, RetryDeadline, Pow2;
      T.ClaimErrorShows(claim, error, nowMs, now);
      T.DeadlineIsCapped(nowMs, SaturatingIncrement(claim.row.retry.attempt));
      claim := claim.(row := claim.row.(observedGeneration := claim.row.generation));
      match error {
        case Definitive(m) =>
          var retry := RetryState(claim.row.retry.attempt, Some(I64_MAX), Some(ProviderRejected),
                                  Some(ProviderText(m)));
          claim := claim.(row := claim.row.(retry := retry));
          SetOnClaim(ACCEPTED, False, ProviderRejected, ProviderText(m), now);
        case Transient(m) =>
          var retry := claim.row.retry;
          retry := retry.(attempt := SaturatingIncrement(retry.attempt));
          retry := retry.(nextReconcileAt := Some(RetryDeadline(nowMs, retry.attempt)));
          retry := retry.(lastErrorKind := Some(ProviderUnavailable), lastErrorMessage := Some(ProviderText(m)));
          claim := claim.(row := claim.row.(retry := retry));
          SetOnClaim(ACCEPTED, Unknown, ProviderUnavailable, ProviderText(m), now);
      }
    }

    /** `schedule_host_provider_error` */
    method ScheduleHostError(error: ProviderError, nowMs: i64, now: Timestamp)
      modifies this
      ensures T.Both(claim, host) == T.ScheduleHostError(old(claim), old(host), error, nowMs, now)
      ensures host.row.resourceId == old(host).row.resourceId
      ensures T.BothShow(claim, host, if error.Definitive? then False else Unknown,
                         if error.Definitive? then ProviderRejected else ProviderUnavailable,
                         ProviderText(error.message))
      ensures if error.Definitive? then host.row.phase == HostPhase.Failed && host.row.retry.nextReconcileAt == None
              else && host.row.phase == old(host).row.phase
                   && T.Postponed(old(host).row.retry, host.row.retry, error.message, nowMs)
    {
      hide SetCondition, Lookup, Shows, T.SetOn, RetryDeadline, Pow2;
      T.HostErrorShows(claim, host, error, nowMs, now);
      T.DeadlineIsCapped(nowMs, SaturatingIncrement(host.row.retry.attempt));
      match error {
        case Definitive(m) => MarkHostFailed(ProviderRejected, ProviderText(m), now);
        case Transient(m) =>
          var retry := host.row.retry;
          retry := retry.(attempt := SaturatingIncrement(retry.attempt));
          retry := retry.(nextReconcileAt := Some(RetryDeadline(nowMs, retry.attempt)));
          retry := retry.(lastErrorKind := Some(ProviderUnavailable), lastErrorMessage := Some(ProviderText(m)));
          host := host.(row := host.row.(retry := retry));
          SetHostReady(Unknown, ProviderUnavailable, ProviderText(m), now);
          SetOnClaim(READY, Unknown, ProviderUnavailable, ProviderText(m), now);
      }
    }

    /** `schedule_host_retry_only` */
    method ScheduleRetryOnly(error: ProviderError, nowMs: i64)
      modifies `host
      ensures host == T.ScheduleRetryOnly(old(host), error, nowMs)
      ensures if error.Definitive?
              then T.Parked(Min(old(host).row.retry.attempt + 1, U32_MAX), host.row.retry, error.message)
              else T.Postponed(old(host).row.retry, host.row.retry, error.message, nowMs)
      ensures host == old(host).(row := old(host).row.(retry := host.row.retry))
    {
      T.DeadlineIsCapped(nowMs, SaturatingIncrement(host.row.retry.attempt));
      var kind := if error.Definitive? then ProviderRejected else ProviderUnavailable;
      var terminal := error.Definitive?;
      var retry := host.row.retry;
      retry := retry.(attempt := SaturatingIncrement(retry.attempt));
      retry := retry.(nextReconcileAt := Some(if terminal then I64_MAX else RetryDeadline(nowMs, retry.attempt)));
      retry := retry.(lastErrorKind := Some(kind), lastErrorMessage := Some(ProviderText(error.message)));
      host := host.(row := host.row.(retry := retry));
    }

    /** The `Ok(None)` arm of `reconcile_unbound_claim`. */
    method MarkUnsatisfiable(now: Timestamp) returns (changed: bool)
      modifies `claim
      ensures T.Marked(claim, changed) == T.MarkUnsatisfiable(old(claim), now)
      ensures changed <==> !T.ShowsUnsatisfiable(old(claim).row)
    {
      T.MarkUnsatisfiableSettles(claim, now);
      var g := claim.row.generation;
      claim := claim.(row := claim.row.(observedGeneration := g));
      var cs, changedHere := WithCondition(claim.row.conditions, ACCEPTED, False, Unsatisfiable, NoPlanSatisfies, g,
                                           now);
      changed := changedHere;
      cs, changedHere := WithCondition(cs, BOUND, False, HostPending, NoHostAssigned, g, now);
      changed := changed || changedHere;
      cs, changedHere := WithCondition(cs, READY, False, HostNotReady, NoReadyHost, g, now);
      changed := changed || changedHere;
      claim := claim.(row := claim.row.(conditions := cs, retry := NO_RETRY));
    }
  }
}
