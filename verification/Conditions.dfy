/** The condition vector of a claim or a host, updated in place. */
module Conditions {
  import opened Wrappers
  import opened Domain

  class ConditionList {
    var items: seq<Condition>

    constructor (items: seq<Condition>)
      ensures this.items == items
    {
      this.items := items;
    }

    /** `iter().find(...)`: the first entry of that type. */
    method Find(kind: Name) returns (i: nat)
      ensures i == IndexOf(items, kind)
    {
      i := 0;
      while i < |items| && items[i].kind != kind
        invariant i <= |items|
        invariant forall j :: 0 <= j < i ==> items[j].kind != kind
      {
        i := i + 1;
      }
      IndexIsFirst(items, kind, i);
    }

    /** `set_condition` */
    method Set(next: Condition) returns (changed: bool)
      modifies this
      ensures Update(items, changed) == SetCondition(old(items), next)
      ensures changed <==> items != old(items)
      ensures forall kind :: Lookup(items, kind)
                          == if kind == next.kind then Some(Merge(Lookup(old(items), kind), next))
                              else Lookup(old(items), kind)
      ensures old(StrictlySortedByKind(items)) ==> StrictlySortedByKind(items)
    {
      ghost var before := items;
      var i := Find(next.kind);
      if i < |items| {
        var current := items[i];
        if current.status == next.status && current.reason == next.reason
           && current.message == next.message && current.observedGeneration == next.observedGeneration
        {
          changed := false;
        } else {
          if current.status == next.status && current.reason == next.reason {
            items := items[i := current.(message := next.message, observedGeneration := next.observedGeneration)];
          } else {
            items := items[i := next];
          }
          changed := true;
        }
      } else {
        items := items + [next];
        items := SortByKind(items);
        changed := true;
      }
      SetsOneType(before, next);
    }
  }

  lemma {:induction false} IndexIsFirst(cs: seq<Condition>, kind: Name, i: nat)
    requires i <= |cs|
    requires forall j :: 0 <= j < i ==> cs[j].kind != kind
    requires i < |cs| ==> cs[i].kind == kind
    ensures IndexOf(cs, kind) == i
  {
    if cs != [] && i > 0 {
      IndexIsFirst(cs[1..], kind, i - 1);
    }
  }

  lemma SetsOneType(cs: seq<Condition>, next: Condition)
    ensures var r := SetCondition(cs, next);
            && (r.changed <==> r.conditions != cs)
            && (StrictlySortedByKind(cs) ==> StrictlySortedByKind(r.conditions))
            && forall kind :: Lookup(r.conditions, kind)
                           == if kind == next.kind then Some(Merge(Lookup(cs, kind), next)) else Lookup(cs, kind)
  {
    hide SetCondition;
    forall kind {
      SetConditionRefinesMapUpdate(cs, next, kind);
    }
    SetConditionRefinesMapUpdate(cs, next, next.kind);
  }
}
