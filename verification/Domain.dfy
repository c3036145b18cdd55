/** The records of the Control Plane and the pure operations on them.

    Texts that the code only compares (condition types, plan identifiers) are
    integers ordered as the texts are; reasons and messages, which are only
    tested for equality, are enumerated.  A timestamp is the clock reading it
    was taken from, in milliseconds. */
module Domain {
  import opened Wrappers

  const U32_MAX: int := 0xFFFF_FFFF
  const U64_MAX: int := 0xFFFF_FFFF_FFFF_FFFF
  const I64_MAX: int := 0x7FFF_FFFF_FFFF_FFFF
  const I64_MIN: int := -0x8000_0000_0000_0000

  type u32 = x: int | 0 <= x <= U32_MAX
  type u64 = x: int | 0 <= x <= U64_MAX
  type i64 = x: int | I64_MIN <= x <= I64_MAX

  type Name = int
  type PlanId = Name
  type HostClaimId = nat
  type HostId = nat
  type ResourceId = nat
  type Timestamp = nat

  const ACCEPTED: Name := 0
  const BOUND: Name := 1
  const READY: Name := 2

  datatype HostResources = HostResources(vcpus: u32, memoryBytes: u64, storageBytes: u64) {
    /** This capacity meets the requirement in all three components. */
    predicate Meets(requirement: HostResources) {
      && requirement.vcpus <= vcpus
      && requirement.memoryBytes <= memoryBytes
      && requirement.storageBytes <= storageBytes
    }
  }

  datatype AppError = InvalidArgument | NotFound | Conflict | Internal

  /* ---------- machine arithmetic ---------- */

  function Saturate(x: int): (r: i64) {
    if x > I64_MAX then I64_MAX else if x < I64_MIN then I64_MIN else x
  }

  function SaturatingAdd(a: i64, b: i64): i64 {
    Saturate(a + b)
  }

  function SaturatingIncrement(attempt: u32): u32 {
    if attempt == U32_MAX then U32_MAX else attempt + 1
  }

  function Pow2(n: nat): nat {
    if n == 0 then 1 else 2 * Pow2(n - 1)
  }

  function Min(a: int, b: int): int {
    if a <= b then a else b
  }

  /** `i64::try_from(duration.as_millis()).unwrap_or(i64::MAX)` */
  function NowUnixMs(clock: Timestamp): i64 {
    Min(clock, I64_MAX)
  }

  /* ---------- conditions ---------- */

  datatype ConditionStatus = True | False | Unknown

  datatype Reason =
    | PendingEvaluation | HostPending | HostNotReady | HostReady | HostAssigned
    | RequirementsValid | Unsatisfiable | DeletionRequested
    | ProviderResourcePending | ProviderResourceProvisioning | ProviderResourceReady
    | ProviderResourceDeleting | ProviderResourceAbsent
    | ProviderRejected | ProviderUnavailable | ProviderOwnershipConflict
    | CreateOutcomeUnknown | DeleteOutcomeUnknown

  datatype Message =
    | NotEvaluatedYet | NoHostAssigned | NoReadyHost | PolicySatisfies | NoPlanSatisfies
    | AssignedHost(host: HostId) | HostNotReadyYet | AssignedHostReady | AssignedHostNotReady
    | AssignedHostHasNoResource | NoResourceReady | NoResource | BeingReleased
    | StillProvisioning | ResourceReady | BeingDeleted
    | MayHaveCreated | MayHaveDeleted
    | OwnershipMismatch(recorded: ResourceId, found: ResourceId)
    | ProviderText(text: Name)

  datatype Condition = Condition(
    kind: Name,
    status: ConditionStatus,
    reason: Reason,
    message: Message,
    observedGeneration: u64,
    lastTransitionAt: Timestamp)

  predicate SortedByKind(cs: seq<Condition>) {
    forall i, j :: 0 <= i < j < |cs| ==> cs[i].kind <= cs[j].kind
  }

  predicate StrictlySortedByKind(cs: seq<Condition>) {
    forall i, j :: 0 <= i < j < |cs| ==> cs[i].kind < cs[j].kind
  }

  /** The condition list read as a map: the first entry of that type. */
  function Lookup(cs: seq<Condition>, kind: Name): (r: Option<Condition>)
    ensures r.Some? ==> r.value.kind == kind
  {
    if cs == [] then None
    else if cs[0].kind == kind then Some(cs[0])
    else Lookup(cs[1..], kind)
  }

  lemma LookupNone(cs: seq<Condition>, kind: Name)
    ensures Lookup(cs, kind).None? <==> forall i :: 0 <= i < |cs| ==> cs[i].kind != kind
  {}

  predicate ReadyIs(cs: seq<Condition>, status: ConditionStatus) {
    var c := Lookup(cs, READY);
    c.Some? && c.value.status == status
  }

  /** `find` by type: the index of the first match, or the length. */
  function IndexOf(cs: seq<Condition>, kind: Name): (i: nat)
    ensures i <= |cs|
    ensures forall j :: 0 <= j < i ==> cs[j].kind != kind
    ensures i < |cs| ==> cs[i].kind == kind && Lookup(cs, kind) == Some(cs[i])
    ensures i == |cs| ==> Lookup(cs, kind) == None
  {
    if cs == [] then 0
    else if cs[0].kind == kind then 0
    else 1 + IndexOf(cs[1..], kind)
  }

  function InsertByKind(sorted: seq<Condition>, x: Condition): (r: seq<Condition>)
    ensures |r| == |sorted| + 1
  {
    if sorted == [] then [x]
    else if sorted[0].kind <= x.kind then
      [sorted[0]] + InsertByKind(sorted[1..], x)
    else [x] + sorted
  }

  /** A stable sort by condition type. */
  function SortByKind(cs: seq<Condition>): (r: seq<Condition>)
    ensures |r| == |cs|
  {
    if cs == [] then []
    else InsertByKind(SortByKind(cs[..|cs| - 1]), cs[|cs| - 1])
  }

  function Merge(current: Option<Condition>, next: Condition): Condition {
    if current.Some? && current.value.status == next.status && current.value.reason == next.reason
    then current.value.(message := next.message, observedGeneration := next.observedGeneration)
    else next
  }

  datatype Update = Update(conditions: seq<Condition>, changed: bool)

  function SetCondition(cs: seq<Condition>, next: Condition): Update {
    var i := IndexOf(cs, next.kind);
    if i < |cs| then
      var current := cs[i];
      if && current.status == next.status && current.reason == next.reason
         && current.message == next.message && current.observedGeneration == next.observedGeneration
      then Update(cs, false)
      else if current.status == next.status && current.reason == next.reason then
        Update(cs[i := current.(message := next.message, observedGeneration := next.observedGeneration)], true)
      else Update(cs[i := next], true)
    else Update(SortByKind(cs + [next]), true)
  }

  lemma {:induction false} InsertKeepsSorted(sorted: seq<Condition>, x: Condition)
    requires SortedByKind(sorted)
    ensures SortedByKind(InsertByKind(sorted, x))
    ensures forall c :: c in InsertByKind(sorted, x) <==> c in sorted || c == x
    ensures StrictlySortedByKind(sorted) && Lookup(sorted, x.kind).None? ==>
        StrictlySortedByKind(InsertByKind(sorted, x))
  {
    hide Lookup;
    LookupNone(sorted, x.kind);
    if sorted != [] && sorted[0].kind <= x.kind {
      LookupNone(sorted[1..], x.kind);
      InsertKeepsSorted(sorted[1..], x);
      assert forall c :: c in sorted <==> c == sorted[0] || c in sorted[1..];
      var r := InsertByKind(sorted, x);
      assert r[1..] == InsertByKind(sorted[1..], x);
      forall k | 0 < k < |r|
        ensures r[0].kind <= r[k].kind
        ensures StrictlySortedByKind(sorted) && Lookup(sorted, x.kind).None? ==> r[0].kind < r[k].kind
      {
        assert r[k] in r[1..];
      }
    }
  }

  lemma {:induction false} LookupInsert(sorted: seq<Condition>, x: Condition, kind: Name)
    requires SortedByKind(sorted)
    ensures Lookup(InsertByKind(sorted, x), kind)
         == if Lookup(sorted, kind).Some? then Lookup(sorted, kind)
            else if x.kind == kind then Some(x) else None
  {
    if sorted != [] {
      if sorted[0].kind <= x.kind {
        LookupInsert(sorted[1..], x, kind);
      } else {
        assert ([x] + sorted)[1..] == sorted;
        if x.kind == kind {
          LookupNone(sorted, kind);
        }
      }
    }
  }

  lemma {:induction false} LookupAppend(cs: seq<Condition>, x: Condition, kind: Name)
    ensures Lookup(cs + [x], kind)
         == if Lookup(cs, kind).Some? then Lookup(cs, kind)
            else if x.kind == kind then Some(x) else None
  {
    if cs == [] {
      assert cs + [x] == [x];
    } else {
      assert (cs + [x])[1..] == cs[1..] + [x];
      LookupAppend(cs[1..], x, kind);
    }
  }

  /** The stable sort does not change what any type looks up. */
  lemma {:induction false} SortKeepsLookup(cs: seq<Condition>, kind: Name)
    ensures SortedByKind(SortByKind(cs))
    ensures Lookup(SortByKind(cs), kind) == Lookup(cs, kind)
  {
    if cs != [] {
      var init, last := cs[..|cs| - 1], cs[|cs| - 1];
      SortKeepsLookup(init, kind);
      InsertKeepsSorted(SortByKind(init), last);
      LookupInsert(SortByKind(init), last, kind);
      LookupAppend(init, last, kind);
      assert cs == init + [last];
    }
  }

  lemma {:induction false} LookupReplace(cs: seq<Condition>, i: nat, x: Condition, kind: Name)
    requires i < |cs| && x.kind == cs[i].kind && i == IndexOf(cs, x.kind)
    ensures Lookup(cs[i := x], kind) == if kind == x.kind then Some(x) else Lookup(cs, kind)
  {
    if i > 0 {
      assert cs[i := x][1..] == cs[1..][i - 1 := x];
      LookupReplace(cs[1..], i - 1, x, kind);
    }
  }

  /** `set_condition` refines a map update, reports exactly whether the list
      changed, and keeps the list sorted without duplicates. */
  lemma SetConditionRefinesMapUpdate(cs: seq<Condition>, next: Condition, kind: Name)
    ensures var r := SetCondition(cs, next);
            && Lookup(r.conditions, kind)
               == (if kind == next.kind then Some(Merge(Lookup(cs, kind), next)) else Lookup(cs, kind))
            && (r.changed <==> r.conditions != cs)
            && (StrictlySortedByKind(cs) ==> StrictlySortedByKind(r.conditions))
  {
    var i := IndexOf(cs, next.kind);
    var r := SetCondition(cs, next);
    if i < |cs| {
      if r.changed {
        LookupReplace(cs, i, r.conditions[i], kind);
      }
    } else {
      SortKeepsLookup(cs + [next], kind);
      LookupAppend(cs, next, kind);
      if StrictlySortedByKind(cs) {
        SortOfDistinctIsStrict(cs, next);
      }
    }
  }

  /** The entry of this type reads so. */
  predicate Shows(cs: seq<Condition>, kind: Name, status: ConditionStatus, reason: Reason, message: Message,
                  generation: u64) {
    var c := Lookup(cs, kind);
    && c.Some? && c.value.status == status && c.value.reason == reason
    && c.value.message == message && c.value.observedGeneration == generation
  }

  /** What was set shows, since its time or since the time the entry had; every
      other type keeps its entry. */
  lemma SettingShows()
    ensures forall cs, next ::
              var r := SetCondition(cs, next).conditions;
              && Shows(r, next.kind, next.status, next.reason, next.message, next.observedGeneration)
              && (|| Stamp(r, next.kind) == Some(next.lastTransitionAt)
                  || Stamp(r, next.kind) == Stamp(cs, next.kind))
    ensures forall cs, next: Condition, other :: other != next.kind ==>
              Lookup(SetCondition(cs, next).conditions, other) == Lookup(cs, other)
  {
    forall cs, next: Condition, other
      ensures var r := SetCondition(cs, next).conditions;
              && Shows(r, next.kind, next.status, next.reason, next.message, next.observedGeneration)
              && (|| Stamp(r, next.kind) == Some(next.lastTransitionAt)
                  || Stamp(r, next.kind) == Stamp(cs, next.kind))
              && (other != next.kind ==> Lookup(r, other) == Lookup(cs, other))
    {
      SetConditionRefinesMapUpdate(cs, next, next.kind);
      SetConditionRefinesMapUpdate(cs, next, other);
    }
  }

  /** When the entry of this type entered its state. */
  function Stamp(cs: seq<Condition>, kind: Name): Option<Timestamp> {
    var c := Lookup(cs, kind);
    if c.Some? then Some(c.value.lastTransitionAt) else None
  }

  lemma SortOfDistinctIsStrict(cs: seq<Condition>, next: Condition)
    requires StrictlySortedByKind(cs) && Lookup(cs, next.kind).None?
    ensures StrictlySortedByKind(SortByKind(cs + [next]))
  {
    SortedIsFixed(cs);
    assert (cs + [next])[..|cs|] == cs;
    assert SortByKind(cs + [next]) == InsertByKind(cs, next);
    InsertKeepsSorted(cs, next);
  }

  lemma {:induction false} SortedIsFixed(cs: seq<Condition>)
    requires StrictlySortedByKind(cs)
    ensures SortByKind(cs) == cs
  {
    if cs != [] {
      var init, last := cs[..|cs| - 1], cs[|cs| - 1];
      SortedIsFixed(init);
      InsertLast(init, last);
      assert cs == init + [last];
    }
  }

  lemma {:induction false} InsertLast(cs: seq<Condition>, x: Condition)
    requires forall c :: c in cs ==> c.kind <= x.kind
    ensures InsertByKind(cs, x) == cs + [x]
  {
    if cs != [] {
      InsertLast(cs[1..], x);
      assert cs + [x] == [cs[0]] + (cs[1..] + [x]);
    }
  }

  /** Setting a condition that is already so changes nothing. */
  lemma SetConditionIdempotent(cs: seq<Condition>, next: Condition, later: Timestamp)
    ensures var once := SetCondition(cs, next).conditions;
            SetCondition(once, next.(lastTransitionAt := later)) == Update(once, false)
  {
    SetConditionRefinesMapUpdate(cs, next, next.kind);
  }

  /** The list after a sequence of calls. */
  function SetAll(cs: seq<Condition>, calls: seq<Condition>): seq<Condition> {
    if calls == [] then cs
    else SetCondition(SetAll(cs, calls[..|calls| - 1]), calls[|calls| - 1]).conditions
  }

  predicate SameState(a: Condition, b: Condition) {
    a.status == b.status && a.reason == b.reason
  }

  /** Calls k, k+1, ... about this type all carry the state of `c`. */
  predicate UniformFrom(calls: seq<Condition>, k: nat, c: Condition) {
    forall j :: k <= j < |calls| && calls[j].kind == c.kind ==> SameState(calls[j], c)
  }

  /** `c` entered the list as call `k`, in a state other than the one before. */
  predicate StartsRun(cs: seq<Condition>, calls: seq<Condition>, k: nat, c: Condition)
    requires k < |calls|
  {
    && calls[k].kind == c.kind
    && calls[k].lastTransitionAt == c.lastTransitionAt
    && var before := Lookup(SetAll(cs, calls[..k]), c.kind);
       before.None? || !SameState(before.value, c)
  }

  /** Why `c` carries its transition time after these calls: it is still in the
      state it started with, or it entered its state at one of the calls. */
  ghost predicate TransitionExplained(cs: seq<Condition>, calls: seq<Condition>, c: Condition) {
    || (&& Lookup(cs, c.kind).Some? && SameState(Lookup(cs, c.kind).value, c)
        && Lookup(cs, c.kind).value.lastTransitionAt == c.lastTransitionAt
        && UniformFrom(calls, 0, c))
    || (exists k :: 0 <= k < |calls| && StartsRun(cs, calls, k, c) && UniformFrom(calls, k, c))
  }

  lemma ExplainedByLastCall(cs: seq<Condition>, init: seq<Condition>, last: Condition)
    requires var was := Lookup(SetAll(cs, init), last.kind); was.None? || !SameState(was.value, last)
    ensures TransitionExplained(cs, init + [last], last)
  {
    var calls := init + [last];
    assert calls[..|init|] == init;
    assert StartsRun(cs, calls, |init|, last) && UniformFrom(calls, |init|, last);
  }

  lemma ExplainedByEarlierCall(cs: seq<Condition>, init: seq<Condition>, last: Condition, was: Condition,
                               now: Condition)
    requires TransitionExplained(cs, init, was)
    requires now.kind == was.kind && SameState(now, was) && now.lastTransitionAt == was.lastTransitionAt
    requires last.kind == was.kind ==> SameState(last, was)
    ensures TransitionExplained(cs, init + [last], now)
  {
    var calls := init + [last];
    if UniformFrom(init, 0, was) && Lookup(cs, was.kind).Some? && SameState(Lookup(cs, was.kind).value, was)
       && Lookup(cs, was.kind).value.lastTransitionAt == was.lastTransitionAt {
      assert UniformFrom(calls, 0, now);
    } else {
      var k :| 0 <= k < |init| && StartsRun(cs, init, k, was) && UniformFrom(init, k, was);
      assert calls[..k] == init[..k];
      assert StartsRun(cs, calls, k, now) && UniformFrom(calls, k, now);
    }
  }

  /** Over any sequence of calls: the list stays sorted without duplicates,
      types not called are untouched, and the transition time of a type is the
      time of the first call in its current run of equal (status, reason). */
  lemma {:induction false} ConditionHistory(cs: seq<Condition>, calls: seq<Condition>, kind: Name)
    requires StrictlySortedByKind(cs)
    ensures StrictlySortedByKind(SetAll(cs, calls))
    ensures (forall c :: c in calls ==> c.kind != kind) ==> Lookup(SetAll(cs, calls), kind) == Lookup(cs, kind)
    ensures (exists c :: c in calls && c.kind == kind) ==> Lookup(SetAll(cs, calls), kind).Some?
    ensures var now := Lookup(SetAll(cs, calls), kind);
            now.Some? ==> TransitionExplained(cs, calls, now.value)
  {
    if calls != [] {
      var init, last := calls[..|calls| - 1], calls[|calls| - 1];
      assert calls == init + [last];
      ConditionHistory(cs, init, kind);
      SetConditionRefinesMapUpdate(SetAll(cs, init), last, kind);
      var was, now := Lookup(SetAll(cs, init), kind), Lookup(SetAll(cs, calls), kind);
      if now.Some? {
        if kind == last.kind && (was.None? || !SameState(was.value, last)) {
          ExplainedByLastCall(cs, init, last);
        } else {
          ExplainedByEarlierCall(cs, init, last, was.value, now.value);
        }
      }
    }
  }

  /* ---------- retry state ---------- */

  datatype RetryState = RetryState(
    attempt: u32,
    nextReconcileAt: Option<i64>,
    lastErrorKind: Option<Reason>,
    lastErrorMessage: Option<Message>)
  {
    predicate IsDue(now: i64) {
      nextReconcileAt.None? || nextReconcileAt.value <= now
    }
  }

  const NO_RETRY := RetryState(0, None, None, None)

  function RetryDeadline(now: i64, attempt: u32): (deadline: i64) {
    var exponent := Min(attempt, 6);
    var delay := Saturate(1_000 * Pow2(exponent));
    SaturatingAdd(now, Min(delay, 60_000))
  }

  lemma Pow2UpTo6()
    ensures Pow2(0) == 1 && Pow2(1) == 2 && Pow2(2) == 4 && Pow2(3) == 8
    ensures Pow2(4) == 16 && Pow2(5) == 32 && Pow2(6) == 64
  {
    assert Pow2(2) == 4;
    assert Pow2(4) == 16;
  }

  lemma Pow2Positive(n: nat)
    ensures Pow2(n) >= 1
  {}

  /** The backoff is exponential, capped at one minute, saturates instead of
      overflowing, and never shrinks as attempts grow. */
  lemma RetryDeadlineBounded(now: i64, attempt: u32, later: u32)
    ensures RetryDeadline(now, attempt)
         == Min(now + Min(1_000 * Pow2(Min(attempt, 6)), 60_000), I64_MAX)
    ensures attempt <= later ==> RetryDeadline(now, attempt) <= RetryDeadline(now, later)
    ensures 0 <= now ==> now <= RetryDeadline(now, attempt) <= now + 60_000
    ensures 0 <= now && now + 60_000 <= I64_MAX ==> now + 1_000 <= RetryDeadline(now, attempt)
  {
    Pow2UpTo6();
  }

  /* ---------- rows and records ---------- */

  datatype HostPhase = Pending | Provisioning | Ready | Deleting | Failed

  /** A row of `host_claims`. */
  datatype ClaimRow = ClaimRow(
    generation: u64,
    createdAt: Timestamp,
    deletionTimestamp: Option<Timestamp>,
    spec: HostResources,
    observedGeneration: u64,
    conditions: seq<Condition>,
    retry: RetryState)

  /** A row of `hosts`. */
  datatype HostRow = HostRow(
    claimId: HostClaimId,
    createdAt: Timestamp,
    resources: HostResources,
    planId: PlanId,
    phase: HostPhase,
    resourceId: Option<ResourceId>,
    observedAt: Option<Timestamp>,
    conditions: seq<Condition>,
    retry: RetryState)

  /** A claim as the queries return it: its row and the joined Host ID. */
  datatype ClaimRecord = ClaimRecord(id: HostClaimId, row: ClaimRow, hostId: Option<HostId>)

  datatype HostRecord = HostRecord(id: HostId, row: HostRow)

  function InitialClaim(spec: HostResources, now: Timestamp): ClaimRow {
    ClaimRow(1, now, None, spec, 0,
             [Condition(ACCEPTED, Unknown, PendingEvaluation, NotEvaluatedYet, 0, now),
              Condition(BOUND, False, HostPending, NoHostAssigned, 0, now),
              Condition(READY, False, HostNotReady, NoReadyHost, 0, now)],
             NO_RETRY)
  }

  function InitialHost(claimId: HostClaimId, resources: HostResources, planId: PlanId, now: Timestamp): HostRow {
    HostRow(claimId, now, resources, planId, Pending, None, None,
            [Condition(READY, False, ProviderResourcePending, NoResourceReady, 1, now)],
            NO_RETRY)
  }

  lemma InitialConditions(spec: HostResources, resources: HostResources, claimId: HostClaimId, planId: PlanId,
                          now: Timestamp)
    ensures var c := InitialClaim(spec, now);
            var h := InitialHost(claimId, resources, planId, now);
            && StrictlySortedByKind(c.conditions) && StrictlySortedByKind(h.conditions)
            && ReadyIs(c.conditions, False) && ReadyIs(h.conditions, False)
            && (forall kind :: Lookup(c.conditions, kind).Some? <==> kind in {ACCEPTED, BOUND, READY})
  {
    var cs := InitialClaim(spec, now).conditions;
    assert cs[1..][1..] == [cs[2]];
    assert Lookup(cs, READY) == Lookup(cs[1..], READY) == Lookup(cs[1..][1..], READY);
    forall kind ensures Lookup(cs, kind).Some? <==> kind in {ACCEPTED, BOUND, READY} {
      LookupNone(cs, kind);
      assert cs[0].kind == ACCEPTED && cs[1].kind == BOUND && cs[2].kind == READY;
    }
  }

  /* ---------- new identifiers ---------- */

  lemma SomeIdIsNew(s: set<nat>)
    ensures exists id: nat :: id !in s
  {
    var bound := Bound(s);
    assert bound !in s;
  }

  ghost function Bound(s: set<nat>): (b: nat)
    ensures forall x :: x in s ==> x < b
  {
    if s == {} then 0
    else
      var x :| x in s;
      var rest := Bound(s - {x});
      assert forall y :: y in s ==> y == x || y in s - {x};
      if x < rest then rest else x + 1
  }
}
