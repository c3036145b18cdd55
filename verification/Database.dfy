/** The Control Plane database: one object, one method per transaction. */
module Database {
  import opened Wrappers
  import opened Domain
  import opened Tables
  import opened Conditions
  import Spec = Tables

  /** The place of a record in (created_at, id) order. */
  function Insert(sorted: seq<ClaimRecord>, r: ClaimRecord): (s: seq<ClaimRecord>)
    ensures forall x :: x in s <==> x in sorted || x == r
  {
    if sorted == [] then [r]
    else if Before(sorted[0], r) then [sorted[0]] + Insert(sorted[1..], r)
    else [r] + sorted
  }

  lemma {:induction false} InsertKeepsOrder(sorted: seq<ClaimRecord>, r: ClaimRecord)
    requires Ordered(sorted) && forall x :: x in sorted ==> x.id != r.id
    ensures Ordered(Insert(sorted, r))
  {
    var s := Insert(sorted, r);
    if sorted == [] {
    } else if Before(sorted[0], r) {
      InsertKeepsOrder(sorted[1..], r);
      assert s[1..] == Insert(sorted[1..], r);
      forall j | 0 < j < |s| ensures Before(s[0], s[j]) {
        assert s[j] in s[1..];
      }
    } else {
      assert sorted[0] in sorted;
      forall j | 0 < j < |s| ensures Before(s[0], s[j]) {
        assert s[j] == sorted[j - 1];
      }
      assert s[1..] == sorted;
    }
  }

  lemma {:induction false} ListedSoFar(t: Tables, s: seq<ClaimRecord>, rest: set<HostClaimId>)
    requires rest == {} && Ordered(s)
    requires forall r :: r in s <==> r.id in t.claims && r.id !in rest && r == RecordOf(t, r.id)
    ensures IsListing(t, s)
  {
    forall i | 0 <= i < |s| ensures s[i].id in t.claims && s[i] == RecordOf(t, s[i].id) {
      assert s[i] in s;
    }
    forall c | c in t.claims ensures RecordOf(t, c) in s {
      assert RecordOf(t, c).id == c;
    }
  }

  /** There is a listing of any tables. */
  lemma {:induction false} SomeListing(t: Tables, ids: set<HostClaimId>) returns (s: seq<ClaimRecord>)
    requires ids <= t.claims.Keys
    ensures Ordered(s)
    ensures forall r :: r in s <==> r.id in t.claims && r.id in ids && r == RecordOf(t, r.id)
    decreases |ids|
  {
    s := [];
    if ids != {} {
      var id :| id in ids;
      var rest := SomeListing(t, ids - {id});
      InsertKeepsOrder(rest, RecordOf(t, id));
      s := Insert(rest, RecordOf(t, id));
    }
  }

  class Storage {
    var tables: Tables

    ghost predicate Valid()
      reads this
    {
      Schema(tables)
    }

    constructor ()
      ensures Valid() && tables == EMPTY
    {
      tables := EMPTY;
    }

    /** `LEFT JOIN hosts AS h ON h.claim_id = c.id` */
    method HostForClaim(id: HostClaimId) returns (hostId: Option<HostId>)
      requires Valid()
      ensures hostId == HostOf(tables, id)
    {
      if h :| h in tables.hosts.Keys && tables.hosts[h].claimId == id {
        HostOfIs(tables, h);
        hostId := Some(h);
      } else {
        assert forall h :: h in tables.hosts ==> h in tables.hosts.Keys;
        hostId := None;
      }
    }

    method FetchClaim(id: HostClaimId) returns (r: Option<ClaimRecord>)
      requires Valid()
      ensures r == if id in tables.claims then Some(RecordOf(tables, id)) else None
    {
      if id !in tables.claims { return None; }
      var hostId := HostForClaim(id);
      r := Some(ClaimRecord(id, tables.claims[id], hostId));
    }

    method CreateClaim(id: HostClaimId, spec: HostResources, now: Timestamp) returns (r: Result<ClaimRecord, AppError>)
      requires Valid()
      modifies this
      ensures Valid() && Reply(tables, r) == Spec.CreateClaim(old(tables), id, spec, now)
      ensures r.Err? ==> tables == old(tables)
    {
      var valid := ValidateResources(spec);
      if valid.Err? { return Err(valid.error); }
      var existing := FetchClaim(id);
      if existing.Some? {
        if existing.value.row.spec == spec { return Ok(existing.value); }
        return Err(Conflict);
      }
      var row := InitialClaim(spec, now);
      tables := tables.(claims := tables.claims[id := row]);
      r := Ok(ClaimRecord(id, row, None));
    }

    method MarkClaimDeleting(id: HostClaimId, now: Timestamp) returns (r: Result<ClaimRecord, AppError>)
      requires Valid()
      modifies this
      ensures Valid() && Reply(tables, r) == Spec.MarkClaimDeleting(old(tables), id, now)
      ensures r.Err? ==> tables == old(tables)
    {
      var found := FetchClaim(id);
      if found.None? { return Err(NotFound); }
      var record := found.value;
      if record.row.deletionTimestamp.None? {
        var conditions := new ConditionList(record.row.conditions);
        var _ := conditions.Set(Condition(READY, False, DeletionRequested, BeingReleased, record.row.generation, now));
        record := record.(row := record.row.(deletionTimestamp := Some(now),
                                             observedGeneration := record.row.generation,
                                             conditions := conditions.items,
                                             retry := NO_RETRY));
        tables := tables.(claims := tables.claims[id := record.row]);
      }
      r := Ok(record);
    }

    /** `UPDATE ... WHERE id = ? AND deletion_timestamp IS ?`; false when no row matched. */
    method SaveClaimStatus(record: ClaimRecord) returns (saved: bool)
      requires Valid()
      modifies this
      ensures Valid() && tables == Spec.SaveClaimStatus(old(tables), record)
      ensures saved == Current(old(tables), record)
    {
      saved := record.id in tables.claims && tables.claims[record.id].deletionTimestamp == record.row.deletionTimestamp;
      if saved {
        var row := tables.claims[record.id].(observedGeneration := record.row.observedGeneration,
                                             conditions := record.row.conditions,
                                             retry := record.row.retry);
        tables := tables.(claims := tables.claims[record.id := row]);
      }
    }

    /** A transaction over both tables: it commits both writes or none. */
    method EnsureHost(claimId: HostClaimId, planId: PlanId, resources: HostResources, newId: HostId, now: Timestamp)
      returns (r: Result<HostRecord, AppError>)
      requires Valid()
      modifies this
      ensures Valid() && Reply(tables, r) == Spec.EnsureHost(old(tables), claimId, planId, resources, newId, now)
      ensures r.Err? ==> tables == old(tables)
    {
      EnsureHostKeepsSchema(tables, claimId, planId, resources, newId, now);
      var valid := ValidateResources(resources);
      if valid.Err? { return Err(valid.error); }

      var transaction := tables;
      var found := FetchClaim(claimId);
      if found.None? { return Err(NotFound); }
      var claim := found.value;
      if claim.row.deletionTimestamp.Some? { return Err(Conflict); }
      if claim.hostId.Some? {
        var host := HostRecord(claim.hostId.value, transaction.hosts[claim.hostId.value]);
        if !SameAssignment(host.row, planId, resources) { return Err(Conflict); }
        return Ok(host);
      }

      var host := HostRecord(newId, InitialHost(claimId, resources, planId, now));
      if newId in transaction.hosts { return Err(Internal); }
      transaction := transaction.(hosts := transaction.hosts[newId := host.row],
                                  issued := transaction.issued + {newId});
      var g := claim.row.generation;
      var conditions := new ConditionList(claim.row.conditions);
      var _ := conditions.Set(Condition(ACCEPTED, True, RequirementsValid, PolicySatisfies, g, now));
      var _ := conditions.Set(Condition(BOUND, True, HostAssigned, AssignedHost(newId), g, now));
      var _ := conditions.Set(Condition(READY, False, HostNotReady, HostNotReadyYet, g, now));
      var row := claim.row.(observedGeneration := g, conditions := conditions.items, retry := NO_RETRY);
      transaction := transaction.(claims := transaction.claims[claimId := row]);
      tables := transaction;
      r := Ok(host);
    }

    method GetHost(id: HostId) returns (r: Result<HostRecord, AppError>)
      ensures r == Spec.GetHost(tables, id)
    {
      if id !in tables.hosts { return Err(NotFound); }
      r := Ok(HostRecord(id, tables.hosts[id]));
    }

    method SaveHost(record: HostRecord) returns (r: Result<(), AppError>)
      requires Valid()
      modifies this
      ensures Valid() && Reply(tables, r) == Spec.SaveHost(old(tables), record)
      ensures r.Err? ==> tables == old(tables)
    {
      SaveHostKeepsSchema(tables, record);
      if record.id !in tables.hosts { return Err(NotFound); }
      if record.row.resourceId.Some? {
        var others := tables.hosts.Keys - {record.id};
        if other :| other in others && tables.hosts[other].resourceId == record.row.resourceId {
          assert RecordedElsewhere(tables, record.id, record.row.resourceId.value);
          return Err(Internal);
        }
      }
      var row := tables.hosts[record.id].(phase := record.row.phase, resourceId := record.row.resourceId,
                                          observedAt := record.row.observedAt, conditions := record.row.conditions,
                                          retry := record.row.retry);
      tables := tables.(hosts := tables.hosts[record.id := row]);
      r := Ok(());
    }

    /** `DELETE FROM host_claims`, which cascades to the Host. */
    method FinalizeClaim(id: HostClaimId) returns (r: Result<(), AppError>)
      requires Valid()
      modifies this
      ensures Valid() && Reply(tables, r) == Spec.FinalizeClaim(old(tables), id)
      ensures r.Err? ==> tables == old(tables)
    {
      if id !in tables.claims { return Err(NotFound); }
      tables := tables.(claims := tables.claims - {id},
                        hosts := map h | h in tables.hosts && tables.hosts[h].claimId != id :: tables.hosts[h]);
      r := Ok(());
    }

    /** All claims joined with their hosts, ordered by (created_at, id). */
    method ListClaims() returns (records: seq<ClaimRecord>)
      requires Valid()
      ensures IsListing(tables, records)
    {
      records := [];
      var rest := tables.claims.Keys;
      while rest != {}
        invariant rest <= tables.claims.Keys && Ordered(records)
        invariant forall r :: r in records <==> r.id in tables.claims && r.id !in rest && r == RecordOf(tables, r.id)
        decreases |rest|
      {
        var id :| id in rest;
        var hostId := HostForClaim(id);
        var record := ClaimRecord(id, tables.claims[id], hostId);
        InsertKeepsOrder(records, record);
        records := Insert(records, record);
        rest := rest - {id};
      }
      ListedSoFar(tables, records, rest);
    }
  }
}
