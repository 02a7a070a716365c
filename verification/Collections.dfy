/** Storage defaults, sums over finite maps and small set facts shared by the other modules. */
module Collections {
  /** The number of values of an unsigned 64-bit integer. */
  const U64: nat := 0x1_0000_0000_0000_0000

  datatype Option<+T> = None | Some(value: T)

  /** An empty storage slot reads as zero. */
  function Get<K>(m: map<K, nat>, k: K): nat {
    if k in m then m[k] else 0
  }

  function GetInt<K>(m: map<K, int>, k: K): int {
    if k in m then m[k] else 0
  }

  /** Storage subtraction: a big unsigned integer that would go below zero fails the call. */
  function Debit<K>(m: map<K, nat>, k: K, amount: nat): Option<map<K, nat>> {
    if amount <= Get(m, k) then Some(m[k := Get(m, k) - amount]) else None
  }

  function Minus(a: nat, b: nat): nat {
    if b <= a then a - b else 0
  }

  function Credit<K>(m: map<K, nat>, k: K, amount: nat): map<K, nat> {
    m[k := Get(m, k) + amount]
  }

  /** The sum of all values of a finite map. */
  ghost function Total<K(!new)>(m: map<K, nat>): nat
    decreases |m|
  {
    if m == map[] then 0
    else
      var k :| k in m;
      m[k] + Total(m - {k})
  }

  /** The sum does not depend on the order in which keys are taken. */
  lemma {:induction false} TotalRemove<K(!new)>(m: map<K, nat>, k: K)
    requires k in m
    ensures Total(m) == m[k] + Total(m - {k})
    decreases |m|
  {
    var j :| j in m && Total(m) == m[j] + Total(m - {j});
    if j != k {
      TotalRemove(m - {j}, k);
      TotalRemove(m - {k}, j);
      assert m - {j} - {k} == m - {k} - {j};
    }
  }

  /** Writing one key moves the sum by exactly the change at that key. */
  lemma {:induction false} TotalUpdate<K(!new)>(m: map<K, nat>, k: K, v: nat)
    ensures Total(m[k := v]) == Total(m) - Get(m, k) + v
  {
    var n := m[k := v];
    TotalRemove(n, k);
    assert n - {k} == m - {k};
    if k in m {
      TotalRemove(m, k);
    } else {
      assert m - {k} == m;
    }
  }

  /** One value is never more than the sum. */
  lemma {:induction false} TotalAtLeast<K(!new)>(m: map<K, nat>, k: K)
    ensures Get(m, k) <= Total(m)
  {
    if k in m {
      TotalRemove(m, k);
    }
  }

  /** A subset is no larger. */
  lemma {:induction false} SubsetSize<T>(a: set<T>, b: set<T>)
    requires a <= b
    ensures |a| <= |b|
    decreases |a|
  {
    if a != {} {
      var x :| x in a;
      SubsetSize(a - {x}, b - {x});
    }
  }
}
