/** The fake provider: its database as a value and its operations on it. */
module Fake {
  import opened Wrappers
  import opened Domain
  import opened Provider
  import opened Catalog

  const INJECTED: Name := 3
  const PLAN_MISMATCH: Name := 4
  const UNKNOWN_PLAN: Name := 5
  const IO_ERROR: Name := 6

  datatype Fault =
    | CreateDefinitive | CreateTransient | CreateResponseLoss
    | DeleteTransient | DeleteResponseLoss | ObserveTransient

  /** The `faults` table: remaining injections per operation. */
  datatype Faults = Faults(
    createDefinitive: nat, createTransient: nat, createResponseLoss: nat,
    deleteTransient: nat, deleteResponseLoss: nat, observeTransient: nat)
  {
    function Remaining(kind: Fault): nat {
      match kind
      case CreateDefinitive => createDefinitive
      case CreateTransient => createTransient
      case CreateResponseLoss => createResponseLoss
      case DeleteTransient => deleteTransient
      case DeleteResponseLoss => deleteResponseLoss
      case ObserveTransient => observeTransient
    }

    function With(kind: Fault, n: nat): Faults {
      match kind
      case CreateDefinitive => this.(createDefinitive := n)
      case CreateTransient => this.(createTransient := n)
      case CreateResponseLoss => this.(createResponseLoss := n)
      case DeleteTransient => this.(deleteTransient := n)
      case DeleteResponseLoss => this.(deleteResponseLoss := n)
      case ObserveTransient => this.(observeTransient := n)
    }

    function Total(): nat {
      createDefinitive + createTransient + createResponseLoss + deleteTransient + deleteResponseLoss + observeTransient
    }
  }

  /** A row of `provider_resources`, keyed by its Host ID. */
  datatype Resource = Resource(id: ResourceId, planId: PlanId, lifecycle: ProviderLifecycle)

  /** `issued` is the history of resource IDs, each with the host it was made for. */
  datatype FakeDb = FakeDb(
    plans: seq<PlanRow>,
    resources: map<HostId, Resource>,
    faults: Faults,
    issued: map<ResourceId, HostId>)

  datatype Answer<+T> = Answer(db: FakeDb, response: T)

  /** `consume_fault` */
  function ConsumeFault(db: FakeDb, kind: Fault): Answer<bool> {
    var n := db.faults.Remaining(kind);
    if n == 0 then Answer(db, false) else Answer(db.(faults := db.faults.With(kind, n - 1)), true)
  }

  /** `resource_by_host` */
  function ResourceByHost(db: FakeDb, h: HostId): Option<ProviderResource> {
    if h in db.resources then Some(ProviderResource(db.resources[h].id, h, db.resources[h].lifecycle)) else None
  }

  function ObserveHost(db: FakeDb, h: HostId): Answer<Observed> {
    var fault := ConsumeFault(db, ObserveTransient);
    if fault.response then Answer(fault.db, Err(Transient(INJECTED)))
    else
      match ResourceByHost(db, h)
      case None => Answer(db, Ok(Absent))
      case Some(r) => Answer(db, Ok(Present(r)))
  }

  /** `INSERT INTO provider_resources` */
  function Inserted(db: FakeDb, h: HostId, planId: PlanId, newId: ResourceId): FakeDb {
    db.(resources := db.resources[h := Resource(newId, planId, ProviderLifecycle.Ready)],
        issued := db.issued[newId := h])
  }

  function CreateResource(db: FakeDb, h: HostId, planId: PlanId, newId: ResourceId): Answer<Creation> {
    var definitive := ConsumeFault(db, CreateDefinitive);
    if definitive.response then Answer(definitive.db, Err(Definitive(INJECTED)))
    else
      var transient := ConsumeFault(db, CreateTransient);
      if transient.response then Answer(transient.db, Err(Transient(INJECTED)))
      else if h in db.resources then
        if db.resources[h].planId != planId then Answer(db, Err(Definitive(PLAN_MISMATCH)))
        else Answer(db, Ok(Created(ResourceByHost(db, h).value)))
      else if !exists p | p in db.plans :: p.id == planId && p.enabled then Answer(db, Err(Definitive(UNKNOWN_PLAN)))
      else
        var loss := ConsumeFault(db, CreateResponseLoss);
        Answer(Inserted(loss.db, h, planId, newId),
               Ok(if loss.response then CreateOutcome.OutcomeUnknown
                  else Created(ProviderResource(newId, h, ProviderLifecycle.Ready))))
  }

  function DeleteResource(db: FakeDb, h: HostId): Answer<Deletion> {
    var transient := ConsumeFault(db, DeleteTransient);
    if transient.response then Answer(transient.db, Err(Transient(INJECTED)))
    else
      var loss := ConsumeFault(db, DeleteResponseLoss);
      Answer(loss.db.(resources := db.resources - {h}),
             Ok(if loss.response then DeleteOutcome.OutcomeUnknown else Deleted))
  }

  predicate Offers(db: FakeDb, planId: PlanId) {
    exists p | p in db.plans :: p.id == planId && p.enabled
  }

  /** One injection of this kind is used up, and no other. */
  predicate UsesUp(before: Faults, after: Faults, kind: Fault) {
    && before.Remaining(kind) > 0 && after.Remaining(kind) == before.Remaining(kind) - 1
    && forall other :: other != kind ==> after.Remaining(other) == before.Remaining(other)
  }

  /** An observation changes no resource; it fails only by using up a fault. */
  lemma ObserveCases(db: FakeDb, h: HostId)
    ensures var a := ObserveHost(db, h);
            && a.db == db.(faults := a.db.faults)
            && (if db.faults.observeTransient > 0
                then && a.response == Err(Transient(INJECTED)) && UsesUp(db.faults, a.db.faults, ObserveTransient)
                     && a.db.faults.Total() == db.faults.Total() - 1
                else && a.db == db
                     && (if h in db.resources
                         then a.response == Ok(Present(ProviderResource(db.resources[h].id, h,
                                                                        db.resources[h].lifecycle)))
                         else a.response == Ok(Absent)))
  {}

  /** A create by the injections left, for any host and plan: a definitive fault is
      answered as definitive, otherwise a transient one as transient, and neither
      has an effect; then the resource there is is returned, or its other plan
      refused; then an unknown plan is refused; and otherwise the resource is made,
      and its response is lost exactly when that fault is left. */
  lemma CreateCases(db: FakeDb, h: HostId, planId: PlanId, newId: ResourceId)
    ensures var a, f := CreateResource(db, h, planId, newId), db.faults;
            && a.db == db.(faults := a.db.faults, resources := a.db.resources, issued := a.db.issued)
            && (if f.createDefinitive > 0 then
                  && a.response == Err(Definitive(INJECTED)) && a.db == db.(faults := a.db.faults)
                  && UsesUp(f, a.db.faults, CreateDefinitive)
                else if f.createTransient > 0 then
                  && a.response == Err(Transient(INJECTED)) && a.db == db.(faults := a.db.faults)
                  && UsesUp(f, a.db.faults, CreateTransient)
                else if h in db.resources then
                  && a.db == db
                  && a.response == (if db.resources[h].planId == planId
                                    then Ok(Created(ProviderResource(db.resources[h].id, h, db.resources[h].lifecycle)))
                                    else Err(Definitive(PLAN_MISMATCH)))
                else if !Offers(db, planId) then
                  a.db == db && a.response == Err(Definitive(UNKNOWN_PLAN))
                else
                  && a.db.resources == db.resources[h := Resource(newId, planId, ProviderLifecycle.Ready)]
                  && a.db.issued == db.issued[newId := h]
                  && (if f.createResponseLoss > 0
                      then a.response == Ok(CreateOutcome.OutcomeUnknown) && UsesUp(f, a.db.faults, CreateResponseLoss)
                      else && a.response == Ok(Created(ProviderResource(newId, h, ProviderLifecycle.Ready)))
                           && a.db.faults == f))
  {}

  /** For a host without a resource and a plan on offer, what the answer tells about
      the effect: an error has none, a success has its effect whether or not the
      response is lost, and all but a plain success use up one fault. */
  lemma CreateAnswers(db: FakeDb, h: HostId, planId: PlanId, newId: ResourceId)
    requires h !in db.resources && Offers(db, planId)
    ensures var a := CreateResource(db, h, planId, newId);
            && a.db == db.(faults := a.db.faults, resources := a.db.resources, issued := a.db.issued)
            && a.db.faults.Total() == db.faults.Total() - (if a.response.Ok? && a.response.value.Created? then 0 else 1)
            && (if a.response.Ok?
                then && a.db.resources == db.resources[h := Resource(newId, planId, ProviderLifecycle.Ready)]
                     && a.db.issued == db.issued[newId := h]
                     && (a.response == Ok(CreateOutcome.OutcomeUnknown)
                         || a.response == Ok(Created(ProviderResource(newId, h, ProviderLifecycle.Ready))))
                else && a.db.resources == db.resources && a.db.issued == db.issued
                     && (a.response == Err(Definitive(INJECTED)) || a.response == Err(Transient(INJECTED))))
  {}

  /** A repeated create finds the resource of the first and makes no second one. */
  lemma CreateIsIdempotent(db: FakeDb, h: HostId, planId: PlanId, newId: ResourceId)
    requires h in db.resources && db.resources[h].planId == planId
    ensures var a := CreateResource(db, h, planId, newId);
            && a.db.resources == db.resources && a.db.issued == db.issued
            && (a.response.Ok? ==>
                  a.response == Ok(Created(ProviderResource(db.resources[h].id, h, db.resources[h].lifecycle))))
  {}

  /** A delete by the injections left: a transient fault is answered as transient and
      has no effect; otherwise the resource is gone, and the response is lost exactly
      when that fault is left. */
  lemma DeleteCases(db: FakeDb, h: HostId)
    ensures var a, f := DeleteResource(db, h), db.faults;
            if f.deleteTransient > 0 then
              && a.response == Err(Transient(INJECTED)) && a.db == db.(faults := a.db.faults)
              && UsesUp(f, a.db.faults, DeleteTransient)
            else
              && a.db == db.(faults := a.db.faults, resources := db.resources - {h})
              && (if f.deleteResponseLoss > 0
                  then a.response == Ok(DeleteOutcome.OutcomeUnknown) && UsesUp(f, a.db.faults, DeleteResponseLoss)
                  else a.response == Ok(Deleted) && a.db.faults == f)
  {}

  /** What the answer to a delete tells about its effect. */
  lemma DeleteAnswers(db: FakeDb, h: HostId)
    ensures var a := DeleteResource(db, h);
            && a.db == db.(faults := a.db.faults, resources := a.db.resources)
            && a.db.faults.Total() == db.faults.Total() - (if a.response == Ok(Deleted) then 0 else 1)
            && (if a.response.Ok? then a.db.resources == db.resources - {h}
                else a.db.resources == db.resources && a.response == Err(Transient(INJECTED)))
  {}
}
