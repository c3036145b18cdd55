/** What the stored rows say is true: the status, reason, message and retry state
    of every claim and host against the rest of its row, against any provider. */
module Status {
  import opened Wrappers
  import opened Domain
  import opened Provider
  import opened Tables
  import opened Protocol
  import opened Invariants
  import T = Transitions

  predicate StampedWithin(cs: seq<Condition>, kind: Name, since: Timestamp, clock: Timestamp) {
    var at := Stamp(cs, kind);
    at.Some? && since <= at.value <= clock
  }

  /* ---------- hosts ---------- */

  /** A host's Ready condition: its reason fixes its status and what it tells. */
  predicate HostConditionFits(c: Condition, row: HostRow) {
    match c.reason
    case ProviderResourcePending => c.status == False && c.message == NoResourceReady
    case ProviderResourceAbsent => c.status == False && c.message == NoResource
    case ProviderResourceProvisioning => c.status == False && c.message == StillProvisioning
    case ProviderResourceReady => c.status == True && c.message == ResourceReady
    case ProviderResourceDeleting => c.status == False && c.message == BeingDeleted
    case CreateOutcomeUnknown => c.status == Unknown && c.message == MayHaveCreated
    case ProviderUnavailable => c.status == Unknown && c.message.ProviderText?
    case ProviderRejected => c.status == False && c.message.ProviderText?
    case ProviderOwnershipConflict =>
      && c.status == False && c.message.OwnershipMismatch?
      && row.resourceId == Some(c.message.recorded) && c.message.found != c.message.recorded
    case _ => false
  }

  /** The phases a host can be in under that reason; while its claim is released
      a host in phase Deleting keeps the condition it had. */
  predicate PhaseFits(row: HostRow, reason: Reason, released: bool) {
    match row.phase
    case Pending =>
      row.resourceId.None? && reason in {ProviderResourcePending, ProviderResourceAbsent, ProviderUnavailable}
    case Provisioning =>
      if row.resourceId.Some? then reason in {ProviderResourceProvisioning, ProviderUnavailable}
      else reason in {ProviderResourcePending, ProviderResourceAbsent, ProviderUnavailable, CreateOutcomeUnknown}
    case Ready => row.resourceId.Some? && reason in {ProviderResourceReady, ProviderUnavailable}
    case Deleting =>
      row.resourceId.Some? && (released || reason in {ProviderResourceDeleting, ProviderUnavailable})
    case Failed => reason in {ProviderRejected, ProviderOwnershipConflict}
  }

  /** A deadline at most so far ahead of the clock. */
  predicate DueWithin(retry: RetryState, clock: Timestamp, delay: nat) {
    retry.nextReconcileAt.Some? && retry.nextReconcileAt.value <= clock + delay
  }

  /** The retry state by the kind of its last error. */
  predicate HostRetryFits(row: HostRow, c: Condition, released: bool, clock: Timestamp) {
    var retry := row.retry;
    match retry.lastErrorKind
    case None =>
      && retry == NO_RETRY
      && (c.reason in {ProviderUnavailable, CreateOutcomeUnknown, ProviderRejected, ProviderOwnershipConflict} ==>
            || (released && row.phase == HostPhase.Deleting)
            || (c.reason == ProviderUnavailable && row.phase == HostPhase.Provisioning && row.resourceId.None?))
    case Some(ProviderUnavailable) =>
      && retry.attempt >= 1 && DueWithin(retry, clock, 60_000)
      && retry.lastErrorMessage.Some? && retry.lastErrorMessage.value.ProviderText?
      && (released || (c.reason == ProviderUnavailable && retry.lastErrorMessage == Some(c.message)))
    case Some(CreateOutcomeUnknown) =>
      && retry.attempt == 1 && DueWithin(retry, clock, 1_000) && retry.lastErrorMessage == Some(MayHaveCreated)
      && row.phase == HostPhase.Provisioning && row.resourceId.None? && c.reason == CreateOutcomeUnknown
    case Some(DeleteOutcomeUnknown) =>
      && retry.attempt == 0 && DueWithin(retry, clock, 1_000) && retry.lastErrorMessage == Some(MayHaveDeleted)
      && row.phase == HostPhase.Deleting && released
    case Some(ProviderRejected) =>
      && retry.lastErrorMessage.Some? && retry.lastErrorMessage.value.ProviderText?
      && (|| (released && retry.nextReconcileAt == Some(I64_MAX))
          || (&& row.phase == HostPhase.Failed && retry.nextReconcileAt == None
              && c.reason == ProviderRejected && retry.lastErrorMessage == Some(c.message)))
    case Some(ProviderOwnershipConflict) =>
      && row.phase == HostPhase.Failed && c.reason == ProviderOwnershipConflict
      && retry.lastErrorMessage == Some(c.message)
      && (retry.nextReconcileAt == None || (released && retry.nextReconcileAt == Some(I64_MAX)))
    case _ => false
  }

  predicate HostTells(row: HostRow, released: bool, clock: Timestamp) {
    && StampedWithin(row.conditions, READY, row.createdAt, clock)
    && var c := Lookup(row.conditions, READY).value;
       && c.observedGeneration == 1
       && HostConditionFits(c, row) && PhaseFits(row, c.reason, released) && HostRetryFits(row, c, released, clock)
       && (row.resourceId.Some? || c.reason in {ProviderResourceAbsent, CreateOutcomeUnknown} ==> row.observedAt.Some?)
       && (row.observedAt.Some? ==> row.createdAt <= row.observedAt.value <= clock)
  }

  /* ---------- claims ---------- */

  /** Accepted: settled once a host is assigned; before, the last selection. */
  predicate AcceptedFits(r: ClaimRecord) {
    var cs, g := r.row.conditions, r.row.generation;
    var c := Lookup(cs, ACCEPTED);
    if r.hostId.Some? then Shows(cs, ACCEPTED, True, RequirementsValid, PolicySatisfies, g)
    else
      && c.Some?
      && match c.value.reason
         case PendingEvaluation => Shows(cs, ACCEPTED, Unknown, PendingEvaluation, NotEvaluatedYet, 0)
         case Unsatisfiable => Shows(cs, ACCEPTED, False, Unsatisfiable, NoPlanSatisfies, g)
         case ProviderUnavailable =>
           c.value.status == Unknown && c.value.message.ProviderText? && c.value.observedGeneration == g
         case ProviderRejected =>
           c.value.status == False && c.value.message.ProviderText? && c.value.observedGeneration == g
         case _ => false
  }

  /** Bound is True exactly when a host is assigned, and names it. */
  predicate BoundFits(r: ClaimRecord) {
    var cs := r.row.conditions;
    match r.hostId
    case Some(h) => Shows(cs, BOUND, True, HostAssigned, AssignedHost(h), r.row.generation)
    case None =>
      || Shows(cs, BOUND, False, HostPending, NoHostAssigned, 0)
      || Shows(cs, BOUND, False, HostPending, NoHostAssigned, r.row.generation)
  }

  predicate ClaimReasonFits(c: Condition) {
    match c.reason
    case HostReady => c.status == True && c.message == AssignedHostReady
    case HostNotReady =>
      && c.status == False
      && c.message in {NoReadyHost, HostNotReadyYet, AssignedHostNotReady, AssignedHostHasNoResource}
    case DeletionRequested => c.status == False && c.message == BeingReleased
    case CreateOutcomeUnknown => c.status == Unknown && c.message == MayHaveCreated
    case ProviderUnavailable => c.status == Unknown && c.message.ProviderText?
    case ProviderRejected => c.status == False && c.message.ProviderText?
    case ProviderOwnershipConflict => c.status == False && c.message.OwnershipMismatch?
    case _ => false
  }

  predicate ClaimReadyFits(r: ClaimRecord) {
    var c := Lookup(r.row.conditions, READY);
    && c.Some? && ClaimReasonFits(c.value)
    && (if Released(r.row) then c.value.reason in {DeletionRequested, ProviderOwnershipConflict}
        else c.value.reason != DeletionRequested
             && (r.hostId.None? <==> c.value.reason == HostNotReady && c.value.message == NoReadyHost))
    && (c.value.observedGeneration == r.row.generation
        || (c.value.observedGeneration == 0 && r.hostId.None? && !Released(r.row)))
  }

  /** Only an unbound live claim has a retry of its own, after a failed selection. */
  predicate ClaimRetryFits(r: ClaimRecord, clock: Timestamp) {
    var retry, c := r.row.retry, Lookup(r.row.conditions, ACCEPTED);
    if retry == NO_RETRY then
      !Released(r.row) && r.hostId.None? ==> c.Some? && c.value.reason in {PendingEvaluation, Unsatisfiable}
    else
      && !Released(r.row) && r.hostId.None?
      && c.Some? && retry.lastErrorKind == Some(c.value.reason) && retry.lastErrorMessage == Some(c.value.message)
      && match c.value.reason
         case ProviderUnavailable => retry.attempt >= 1 && DueWithin(retry, clock, 60_000)
         case ProviderRejected => retry.nextReconcileAt == Some(I64_MAX)
         case _ => false
  }

  /** No generation is observed before the first verdict. */
  predicate GenerationFits(r: ClaimRecord) {
    var c := Lookup(r.row.conditions, ACCEPTED);
    && c.Some?
    && r.row.observedGeneration
       == if c.value.reason == PendingEvaluation && !Released(r.row) then 0 else r.row.generation
  }

  predicate TimesFit(row: ClaimRow, clock: Timestamp) {
    && row.createdAt <= clock
    && (Released(row) ==> row.createdAt <= row.deletionTimestamp.value <= clock)
    && StampedWithin(row.conditions, ACCEPTED, row.createdAt, clock)
    && StampedWithin(row.conditions, BOUND, row.createdAt, clock)
    && StampedWithin(row.conditions, READY, row.createdAt, clock)
  }

  predicate ClaimTells(r: ClaimRecord, clock: Timestamp) {
    && TimesFit(r.row, clock) && GenerationFits(r)
    && AcceptedFits(r) && BoundFits(r) && ClaimReadyFits(r) && ClaimRetryFits(r, clock)
  }

  /** The claim's Ready condition says what its host's does. */
  predicate Mirrors(claim: seq<Condition>, host: seq<Condition>) {
    var c, h := Lookup(claim, READY), Lookup(host, READY);
    && c.Some? && h.Some? && c.value.status == h.value.status
    && match h.value.reason
       case ProviderResourceReady => c.value.reason == HostReady
       case ProviderResourceProvisioning => c.value.reason == HostNotReady && c.value.message == AssignedHostNotReady
       case ProviderResourceDeleting => c.value.reason == HostNotReady && c.value.message == AssignedHostNotReady
       case ProviderResourceAbsent => c.value.reason == HostNotReady && c.value.message == AssignedHostHasNoResource
       case _ => c.value.reason == h.value.reason && c.value.message == h.value.message
  }

  /* ---------- the invariant ---------- */

  ghost predicate TablesTell(t: Tables, clock: Timestamp) {
    && (forall id :: id in t.claims ==> ClaimTells(RecordOf(t, id), clock))
    && (forall h :: h in t.hosts ==> HostRowTells(t, h, clock))
  }

  predicate HostRowTells(t: Tables, h: HostId, clock: Timestamp)
    requires h in t.hosts
  {
    var row := t.hosts[h];
    && row.claimId in t.claims && t.claims[row.claimId].createdAt <= row.createdAt
    && HostTells(row, Released(t.claims[row.claimId]), clock)
  }

  /** The listed records still ahead, and the hosts they were listed with. */
  predicate PassTells(t: Tables, clock: Timestamp, p: Pass) {
    forall k :: 0 <= k < |p.snapshot| ==>
      && ClaimTells(p.snapshot[k], clock)
      && (p.snapshot[k].hostId.Some? && p.snapshot[k].hostId.value in t.hosts ==>
            HostTells(t.hosts[p.snapshot[k].hostId.value], Released(p.snapshot[k].row), clock))
  }

  predicate PointTells(t: Tables, clock: Timestamp, p: Pass, point: Point) {
    match point
    case Save(claim, host, after) =>
      && ClaimTells(claim, clock) && HostTells(host.row, !p.live, clock)
      && (after.ThenPersist? ==> Mirrors(claim.row.conditions, host.row.conditions))
    case Create(claim, _) => ClaimTells(claim, clock)
    case Delete(claim, _) => ClaimTells(claim, clock)
    case Persist(claim, _) =>
      && ClaimTells(claim, clock)
      && (claim.hostId.Some? ==>
            && claim.hostId.value in t.hosts
            && Mirrors(claim.row.conditions, t.hosts[claim.hostId.value].conditions))
    case _ => true
  }

  ghost predicate AllTells(c: Core) {
    && TablesTell(c.tables, c.clock)
    && (c.worker.Busy? ==>
          && PassTells(c.tables, c.clock, c.worker.pass)
          && PointTells(c.tables, c.clock, c.worker.pass, c.worker.point))
  }

  /* ---------- transitions ---------- */

  lemma ApplyTellsClaim(claim: ClaimRecord, host: HostRecord, r: ProviderResource, now: Timestamp)
    requires ClaimTells(claim, now) && claim.hostId == Some(host.id) && !Released(claim.row)
    ensures ClaimTells(T.ApplyObservation(claim, host, r, now).claim, now)
  {
    hide Lookup, T.ApplyObservation;
    T.ObservationShows(claim, host, r, now);
  }

  lemma ApplyTellsHost(claim: ClaimRecord, host: HostRecord, r: ProviderResource, now: Timestamp)
    requires HostTells(host.row, false, now)
    ensures HostTells(T.ApplyObservation(claim, host, r, now).host.row, false, now)
  {
    hide Lookup, T.ApplyObservation;
    T.ObservationShows(claim, host, r, now);
  }

  lemma ApplyMirrors(claim: ClaimRecord, host: HostRecord, r: ProviderResource, now: Timestamp)
    ensures var b := T.ApplyObservation(claim, host, r, now);
            Mirrors(b.claim.row.conditions, b.host.row.conditions)
  {
    hide Lookup, T.ApplyObservation;
    T.ObservationShows(claim, host, r, now);
  }

  lemma AbsentTells(claim: ClaimRecord, host: HostRecord, now: Timestamp)
    requires ClaimTells(claim, now) && claim.hostId == Some(host.id) && !Released(claim.row)
    requires HostTells(host.row, false, now)
    ensures var b := T.MarkProviderAbsent(claim, host, now);
            && ClaimTells(b.claim, now) && HostTells(b.host.row, false, now)
            && Mirrors(b.claim.row.conditions, b.host.row.conditions)
  {
    hide SetCondition, Lookup;
    SettingShows();
  }

  lemma UnknownTells(claim: ClaimRecord, host: HostRecord, nowMs: i64, now: Timestamp)
    requires ClaimTells(claim, now) && claim.hostId == Some(host.id) && !Released(claim.row) && nowMs <= now
    requires HostTells(host.row, false, now) && host.row.resourceId.None? && host.row.retry == NO_RETRY
    ensures var b := T.MarkOutcomeUnknown(claim, host, CreateOutcomeUnknown, MayHaveCreated, nowMs, now);
            && ClaimTells(b.claim, now) && HostTells(b.host.row, false, now)
            && Mirrors(b.claim.row.conditions, b.host.row.conditions)
  {
    hide SetCondition, Lookup;
    SettingShows();
  }

  /** For a live claim, or with the deadline that parks a released one. */
  lemma FailedTells(claim: ClaimRecord, host: HostRecord, reason: Reason, message: Message, now: Timestamp)
    requires ClaimTells(claim, now) && claim.hostId == Some(host.id) && HostTells(host.row, Released(claim.row), now)
    requires || (!Released(claim.row) && reason == ProviderRejected && message.ProviderText?)
             || (&& reason == ProviderOwnershipConflict && message.OwnershipMismatch?
                 && host.row.resourceId == Some(message.recorded) && message.found != message.recorded)
    ensures var b := T.MarkHostFailed(claim, host, reason, message, now);
            && ClaimTells(b.claim, now) && Mirrors(b.claim.row.conditions, b.host.row.conditions)
            && HostTells(b.host.row, Released(claim.row), now)
            && (Released(claim.row) ==>
                  HostTells(b.host.row.(retry := b.host.row.retry.(nextReconcileAt := Some(I64_MAX))), true, now))
  {
    hide SetCondition, Lookup;
    SettingShows();
  }

  lemma TransientTellsClaim(claim: ClaimRecord, host: HostRecord, m: Name, nowMs: i64, now: Timestamp)
    requires ClaimTells(claim, now) && claim.hostId == Some(host.id) && !Released(claim.row)
    ensures ClaimTells(T.ScheduleHostError(claim, host, Transient(m), nowMs, now).claim, now)
  {
    hide SetCondition, Lookup, T.SetOn, T.HostReadyCondition;
    T.HostErrorShows(claim, host, Transient(m), nowMs, now);
  }

  lemma TransientTellsHost(claim: ClaimRecord, host: HostRecord, m: Name, nowMs: i64, now: Timestamp)
    requires HostTells(host.row, false, now) && host.row.phase != HostPhase.Failed && nowMs <= now
    ensures HostTells(T.ScheduleHostError(claim, host, Transient(m), nowMs, now).host.row, false, now)
  {
    hide SetCondition, Lookup, T.SetOn, T.ClaimReady, RetryDeadline;
    T.HostErrorShows(claim, host, Transient(m), nowMs, now);
    RetryDeadlineBounded(nowMs, SaturatingIncrement(host.row.retry.attempt), 0);
  }

  lemma TransientMirrors(claim: ClaimRecord, host: HostRecord, m: Name, nowMs: i64, now: Timestamp)
    ensures var b := T.ScheduleHostError(claim, host, Transient(m), nowMs, now);
            Mirrors(b.claim.row.conditions, b.host.row.conditions)
  {
    hide T.ScheduleHostError, Lookup;
    T.HostErrorShows(claim, host, Transient(m), nowMs, now);
  }

  lemma ErrorTells(claim: ClaimRecord, host: HostRecord, error: ProviderError, nowMs: i64, now: Timestamp)
    requires ClaimTells(claim, now) && claim.hostId == Some(host.id) && !Released(claim.row) && nowMs <= now
    requires HostTells(host.row, false, now) && host.row.phase != HostPhase.Failed
    ensures var b := T.ScheduleHostError(claim, host, error, nowMs, now);
            && ClaimTells(b.claim, now) && HostTells(b.host.row, false, now)
            && Mirrors(b.claim.row.conditions, b.host.row.conditions)
  {
    hide ClaimTells, HostTells, Mirrors, T.MarkHostFailed, T.ClaimReady, T.HostReadyCondition, RetryDeadline;
    match error
    case Definitive(m) => FailedTells(claim, host, ProviderRejected, ProviderText(m), now);
    case Transient(m) =>
      TransientTellsClaim(claim, host, m, nowMs, now);
      TransientTellsHost(claim, host, m, nowMs, now);
      TransientMirrors(claim, host, m, nowMs, now);
  }

  lemma RetryOnlyTells(host: HostRecord, error: ProviderError, nowMs: i64, now: Timestamp)
    requires HostTells(host.row, true, now) && nowMs <= now
    ensures HostTells(T.ScheduleRetryOnly(host, error, nowMs).row, true, now)
  {
    hide Lookup, RetryDeadline;
    RetryDeadlineBounded(nowMs, SaturatingIncrement(host.row.retry.attempt), 0);
  }

  lemma RejectionTells(claim: ClaimRecord, m: Name, nowMs: i64, now: Timestamp)
    requires ClaimTells(claim, now) && claim.hostId.None? && !Released(claim.row)
    ensures ClaimTells(T.ScheduleClaimError(claim, Definitive(m), nowMs, now), now)
  {
    hide SetCondition, Lookup, T.SetOn;
    T.ClaimErrorShows(claim, Definitive(m), nowMs, now);
  }

  lemma PostponementTells(claim: ClaimRecord, m: Name, nowMs: i64, now: Timestamp)
    requires ClaimTells(claim, now) && claim.hostId.None? && !Released(claim.row) && nowMs <= now
    ensures ClaimTells(T.ScheduleClaimError(claim, Transient(m), nowMs, now), now)
  {
    hide SetCondition, Lookup, T.SetOn, RetryDeadline;
    T.ClaimErrorShows(claim, Transient(m), nowMs, now);
    var r := T.ScheduleClaimError(claim, Transient(m), nowMs, now);
    assert ClaimRetryFits(r, now) by {
      RetryDeadlineBounded(nowMs, SaturatingIncrement(claim.row.retry.attempt), 0);
    }
    hide ClaimRetryFits, T.ScheduleClaimError;
  }

  lemma UnsatisfiableTells(claim: ClaimRecord, now: Timestamp)
    requires ClaimTells(claim, now) && claim.hostId.None? && !Released(claim.row)
    ensures ClaimTells(T.MarkUnsatisfiable(claim, now).claim, now)
  {
    hide SetCondition, Lookup;
    SettingShows();
  }

  lemma DeletionRowTells(claim: ClaimRecord, now: Timestamp)
    requires ClaimTells(claim, now) && !Released(claim.row)
    ensures ClaimTells(claim.(row := DeletionRow(claim.row, now)), now)
  {
    hide SetCondition, Lookup;
    SettingShows();
  }

  lemma AssignedTells(claim: ClaimRecord, h: HostId, now: Timestamp)
    requires ClaimTells(claim, now) && !Released(claim.row)
    ensures ClaimTells(ClaimRecord(claim.id, AssignedClaimRow(claim.row, h, now), Some(h)), now)
  {
    hide SetCondition, Lookup;
    SettingShows();
  }

  lemma InitialTells(id: HostClaimId, spec: HostResources, h: HostId, resources: HostResources, planId: PlanId,
                     now: Timestamp)
    ensures ClaimTells(ClaimRecord(id, InitialClaim(spec, now), None), now)
    ensures HostTells(InitialHost(id, resources, planId, now), false, now)
  {
    var cs := InitialClaim(spec, now).conditions;
    assert cs[1..][1..] == [cs[2]];
    assert Lookup(cs, BOUND) == Lookup(cs[1..], BOUND);
    assert Lookup(cs, READY) == Lookup(cs[1..], READY) == Lookup(cs[1..][1..], READY);
  }
}
