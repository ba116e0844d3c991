/** Failure-carrying results and facts about iteration orders shared by the other modules. */
module Wrappers {

  datatype Option<+T> = None | Some(value: T)

  type Strings = map<string, string>

  /** `order` visits every member of `keys` exactly once: one of the orders in which a Go `range` may walk a map. */
  ghost predicate IsOrder<T>(order: seq<T>, keys: set<T>) {
    && (forall i :: 0 <= i < |order| ==> order[i] in keys)
    && (forall k :: k in keys ==> k in order)
    && (forall i, j :: 0 <= i < j < |order| ==> order[i] != order[j])
  }

  /** Every finite set of keys has an iteration order, so the `requires IsOrder` clauses can always be met. */
  lemma OrderExists<T>(keys: set<T>) returns (order: seq<T>)
    ensures IsOrder(order, keys)
  {
    if keys == {} {
      order := [];
    } else {
      var k :| k in keys;
      var rest := OrderExists(keys - {k});
      order := [k] + rest;
    }
  }

  lemma OrderLength<T>(order: seq<T>, keys: set<T>)
    requires IsOrder(order, keys)
    ensures |order| == |keys|
  {
    if order != [] {
      OrderLength(order[1..], keys - {order[0]});
    }
  }

  /** Copies one map over another entry by entry, as a `range` loop does; the visiting order cannot matter. */
  method LayOver(base: Strings, top: Strings) returns (out: Strings)
    ensures out == base + top
  {
    out := base;
    var todo := top.Keys;
    while todo != {}
      invariant todo <= top.Keys
      invariant out == base + map k | k in top && k !in todo :: top[k]
    {
      var k :| k in todo;
      out := out[k := top[k]];
      todo := todo - {k};
    }
    assert (map k | k in top && k !in todo :: top[k]) == top;
  }
}
