/** Sums over a finite set, taken in any order. */
module Sums {

  ghost predicate OrderFree<N(!new)>(add: (N, N) -> N) {
    forall a, b, c :: add(a, add(b, c)) == add(b, add(a, c))
  }

  ghost function Fold<T(!new), N>(keys: set<T>, g: T -> N, zero: N, add: (N, N) -> N): N {
    if keys == {} then zero
    else
      var k :| k in keys;
      add(g(k), Fold(keys - {k}, g, zero, add))
  }

  /** Any element can be the first. */
  lemma {:induction false} FoldWithout<T(!new), N(!new)>(keys: set<T>, k: T, g: T -> N, zero: N, add: (N, N) -> N)
    requires k in keys && OrderFree(add)
    ensures Fold(keys, g, zero, add) == add(g(k), Fold(keys - {k}, g, zero, add))
    decreases |keys|
  {
    var first :| first in keys && Fold(keys, g, zero, add) == add(g(first), Fold(keys - {first}, g, zero, add));
    if first != k {
      FoldWithout(keys - {first}, k, g, zero, add);
      FoldWithout(keys - {k}, first, g, zero, add);
      assert keys - {first} - {k} == keys - {k} - {first};
    }
  }

  const ADD_REALS: (real, real) -> real := (a: real, b: real) => a + b
  const ADD_NATS: (nat, nat) -> nat := (a: nat, b: nat) => a + b

  ghost function SumReals<T(!new)>(keys: set<T>, g: T -> real): real { Fold(keys, g, 0.0, ADD_REALS) }

  ghost function SumNats<T(!new)>(keys: set<T>, g: T -> nat): nat { Fold(keys, g, 0, ADD_NATS) }

  lemma RealsWithout<T(!new)>(keys: set<T>, k: T, g: T -> real)
    requires k in keys
    ensures SumReals(keys, g) == g(k) + SumReals(keys - {k}, g)
  {
    FoldWithout(keys, k, g, 0.0, ADD_REALS);
  }

  lemma NatsWithout<T(!new)>(keys: set<T>, k: T, g: T -> nat)
    requires k in keys
    ensures SumNats(keys, g) == g(k) + SumNats(keys - {k}, g)
  {
    FoldWithout(keys, k, g, 0, ADD_NATS);
  }
}
