/** The plan catalogue of the fake provider and the choice of a plan. */
module Catalog {
  import opened Wrappers
  import opened Domain
  import opened Provider
  import opened Tables

  /** A row of `plans`. */
  datatype PlanRow = PlanRow(id: PlanId, vcpus: i64, memoryBytes: i64, storageBytes: i64, price: i64, enabled: bool)

  const RANGE_ERROR: Name := 1
  const INVALID_ROW: Name := 2

  predicate UniqueIds(plans: seq<PlanRow>) {
    forall i, j :: 0 <= i < j < |plans| ==> plans[i].id != plans[j].id
  }

  /** The schema of `plans`, with vCPU counts that fit the interface. */
  predicate CatalogOk(plans: seq<PlanRow>) {
    && UniqueIds(plans)
    && forall p :: p in plans ==>
         0 < p.vcpus <= U32_MAX && 0 < p.memoryBytes && 0 < p.storageBytes && 0 <= p.price
  }

  predicate Feasible(p: PlanRow, r: HostResources) {
    p.enabled && r.vcpus <= p.vcpus && r.memoryBytes <= p.memoryBytes && r.storageBytes <= p.storageBytes
  }

  /** ORDER BY price, memory, storage, vcpus, id */
  predicate Cheaper(p: PlanRow, q: PlanRow) {
    || p.price < q.price
    || (p.price == q.price &&
        (|| p.memoryBytes < q.memoryBytes
         || (p.memoryBytes == q.memoryBytes &&
             (|| p.storageBytes < q.storageBytes
              || (p.storageBytes == q.storageBytes &&
                  (p.vcpus < q.vcpus || (p.vcpus == q.vcpus && p.id < q.id)))))))
  }

  /** WHERE feasible ORDER BY ... LIMIT 1 */
  function Best(plans: seq<PlanRow>, r: HostResources): Option<PlanRow> {
    if plans == [] then None
    else
      var rest := Best(plans[1..], r);
      if Feasible(plans[0], r) && (rest.None? || Cheaper(plans[0], rest.value)) then Some(plans[0])
      else rest
  }

  function SelectPlan(plans: seq<PlanRow>, r: HostResources): Selected {
    if r.memoryBytes > I64_MAX then Err(Definitive(RANGE_ERROR))
    else if r.storageBytes > I64_MAX then Err(Definitive(RANGE_ERROR))
    else
      match Best(plans, r)
      case None => Ok(None)
      case Some(p) =>
        if 0 <= p.vcpus <= U32_MAX && 0 <= p.memoryBytes && 0 <= p.storageBytes
        then Ok(Some(Plan(p.id, HostResources(p.vcpus, p.memoryBytes, p.storageBytes))))
        else Err(Transient(INVALID_ROW))
  }

  /** The choice is a feasible row, no feasible row comes before it, and there is
      one whenever some row is feasible. */
  lemma {:induction false} BestIsLeast(plans: seq<PlanRow>, r: HostResources)
    requires UniqueIds(plans)
    ensures var b := Best(plans, r);
            && (b.Some? <==> exists p :: p in plans && Feasible(p, r))
            && (b.Some? ==> && b.value in plans && Feasible(b.value, r)
                            && forall p :: p in plans && Feasible(p, r) && p != b.value ==> Cheaper(b.value, p))
  {
    if plans != [] {
      var rest := plans[1..];
      BestIsLeast(rest, r);
      assert forall p :: p in plans <==> p == plans[0] || p in rest;
      assert forall p :: p in rest ==> p.id != plans[0].id;
    }
  }

  /** The one feasible row that comes before all others. */
  ghost predicate IsOptimum(plans: seq<PlanRow>, r: HostResources, b: PlanRow) {
    && b in plans && Feasible(b, r)
    && forall p :: p in plans && Feasible(p, r) && p != b ==> Cheaper(b, p) && !Cheaper(p, b)
  }

  /** Selection is the unique lexicographic optimum for every catalogue and every
      storable requirement.  The definitive range errors cannot occur; the only
      error is an optimum with more vCPUs than the interface can name. */
  lemma SelectionIsOptimal(plans: seq<PlanRow>, r: HostResources)
    requires UniqueIds(plans) && Storable(r)
    ensures var s := SelectPlan(plans, r);
            && (s == Ok(None) <==> !exists p :: p in plans && Feasible(p, r))
            && (s.Err? <==> exists b :: IsOptimum(plans, r, b) && b.vcpus > U32_MAX)
            && (s.Err? ==> s.error.Transient?)
            && (s.Ok? && s.value.Some? ==>
                  && s.value.value.resources.Meets(r) && Storable(s.value.value.resources)
                  && exists b :: && IsOptimum(plans, r, b) && b.id == s.value.value.id
                                 && s.value.value.resources == HostResources(b.vcpus, b.memoryBytes, b.storageBytes))
  {
    BestIsLeast(plans, r);
    var b := Best(plans, r);
    if b.Some? {
      assert IsOptimum(plans, r, b.value);
      assert forall c :: IsOptimum(plans, r, c) ==> c == b.value;
    }
  }

  /** With a catalogue that fits the interface, selection never fails. */
  lemma SelectionSucceeds(plans: seq<PlanRow>, r: HostResources)
    requires CatalogOk(plans) && Storable(r)
    ensures SelectPlan(plans, r).Ok?
  {
    BestIsLeast(plans, r);
  }

  /** Among the feasible rows the choice has the least price, then the least memory,
      then the least storage, then the fewest vCPUs, then the least ID. */
  lemma TiesAreBroken(plans: seq<PlanRow>, r: HostResources, p: PlanRow)
    requires UniqueIds(plans) && p in plans && Feasible(p, r)
    ensures Best(plans, r).Some?
    ensures var b := Best(plans, r).value;
            && b.price <= p.price
            && (p.price == b.price ==> b.memoryBytes <= p.memoryBytes)
            && (p.price == b.price && p.memoryBytes == b.memoryBytes ==> b.storageBytes <= p.storageBytes)
            && (p.price == b.price && p.memoryBytes == b.memoryBytes && p.storageBytes == b.storageBytes ==>
                  b.vcpus <= p.vcpus && (p.vcpus == b.vcpus ==> b.id <= p.id))
  {
    BestIsLeast(plans, r);
  }

  /** Asking for less never costs more. */
  lemma PriceIsMonotone(plans: seq<PlanRow>, less: HostResources, more: HostResources)
    requires UniqueIds(plans) && more.Meets(less) && Best(plans, more).Some?
    ensures Best(plans, less).Some? && Best(plans, less).value.price <= Best(plans, more).value.price
  {
    BestIsLeast(plans, less);
    BestIsLeast(plans, more);
    assert Feasible(Best(plans, more).value, less);
  }

  const GIB: i64 := 0x4000_0000

  /** `seed_catalog` */
  const SEED: seq<PlanRow> := [
    PlanRow(10, 2, 4 * GIB, 40 * GIB, 10_000, true),
    PlanRow(11, 4, 8 * GIB, 80 * GIB, 20_000, true),
    PlanRow(12, 8, 16 * GIB, 160 * GIB, 40_000, true)]

  lemma SeedIsOk()
    ensures CatalogOk(SEED)
  {}
}
