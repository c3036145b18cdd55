/** The fake provider as the object that owns its database. */
module FakeDatabase {
  import opened Wrappers
  import opened Domain
  import opened Provider
  import opened Catalog
  import opened Fake
  import Spec = Catalog

  class FakeProvider {
    var db: FakeDb

    constructor (plans: seq<PlanRow>, faults: Faults)
      ensures db == FakeDb(plans, map[], faults, map[])
    {
      db := FakeDb(plans, map[], faults, map[]);
    }

    /** Uses up one injected fault of this kind, if one is left. */
    method ConsumeFault(kind: Fault) returns (consumed: bool)
      modifies this
      ensures Answer(db, consumed) == Fake.ConsumeFault(old(db), kind)
      ensures consumed <==> old(db).faults.Remaining(kind) > 0
      ensures forall other :: db.faults.Remaining(other)
                           == old(db).faults.Remaining(other) - (if consumed && other == kind then 1 else 0)
    {
      var remaining := db.faults.Remaining(kind);
      if remaining == 0 { return false; }
      db := db.(faults := db.faults.With(kind, remaining - 1));
      consumed := true;
    }

    method ResourceByHost(h: HostId) returns (r: Option<ProviderResource>)
      ensures r == Fake.ResourceByHost(db, h)
    {
      if h !in db.resources { return None; }
      var row := db.resources[h];
      r := Some(ProviderResource(row.id, h, row.lifecycle));
    }

    /** The first row of the query is the best plan on offer. */
    method SelectPlan(requirements: HostResources) returns (selected: Selected)
      ensures selected == Spec.SelectPlan(db.plans, requirements)
    {
      if requirements.memoryBytes > I64_MAX { return Err(Definitive(RANGE_ERROR)); }
      if requirements.storageBytes > I64_MAX { return Err(Definitive(RANGE_ERROR)); }
      var row := Best(db.plans, requirements);
      if row.None? { return Ok(None); }
      var p := row.value;
      if !(0 <= p.vcpus <= U32_MAX) { return Err(Transient(INVALID_ROW)); }
      if p.memoryBytes < 0 { return Err(Transient(INVALID_ROW)); }
      if p.storageBytes < 0 { return Err(Transient(INVALID_ROW)); }
      selected := Ok(Some(Plan(p.id, HostResources(p.vcpus, p.memoryBytes, p.storageBytes))));
    }

    method Observe(h: HostId) returns (observed: Observed)
      modifies this
      ensures Answer(db, observed) == ObserveHost(old(db), h)
    {
      var fails := ConsumeFault(ObserveTransient);
      if fails { return Err(Transient(INJECTED)); }
      var found := ResourceByHost(h);
      observed := if found.None? then Ok(Absent) else Ok(Present(found.value));
    }

    method Create(h: HostId, planId: PlanId, newId: ResourceId) returns (creation: Creation)
      modifies this
      ensures Answer(db, creation) == CreateResource(old(db), h, planId, newId)
    {
      var rejected := ConsumeFault(CreateDefinitive);
      if rejected { return Err(Definitive(INJECTED)); }
      var fails := ConsumeFault(CreateTransient);
      if fails { return Err(Transient(INJECTED)); }
      var existing := ResourceByHost(h);
      if existing.Some? {
        if db.resources[h].planId != planId { return Err(Definitive(PLAN_MISMATCH)); }
        return Ok(Created(existing.value));
      }
      if !Offers(db, planId) { return Err(Definitive(UNKNOWN_PLAN)); }

      var loseResponse := ConsumeFault(CreateResponseLoss);
      db := db.(resources := db.resources[h := Resource(newId, planId, ProviderLifecycle.Ready)],
                issued := db.issued[newId := h]);
      if loseResponse { return Ok(CreateOutcome.OutcomeUnknown); }
      creation := Ok(Created(ProviderResource(newId, h, ProviderLifecycle.Ready)));
    }

    method Delete(h: HostId) returns (deletion: Deletion)
      modifies this
      ensures Answer(db, deletion) == DeleteResource(old(db), h)
    {
      var fails := ConsumeFault(DeleteTransient);
      if fails { return Err(Transient(INJECTED)); }
      var loseResponse := ConsumeFault(DeleteResponseLoss);
      db := db.(resources := db.resources - {h});
      deletion := Ok(if loseResponse then DeleteOutcome.OutcomeUnknown else Deleted);
    }
  }
}
