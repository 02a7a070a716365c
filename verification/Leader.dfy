/** Leader election among the relayers (bridge/bridges/ethMultiversX/topology, bridge/clients/roleProviders). */
module Leader {

  type Key = seq<nat>

  const ADDRESS_LEN: nat := 32

  /** The byte-wise order of keys; a proper prefix comes first. */
  predicate Less(a: Key, b: Key) {
    b != [] && (a == [] || a[0] < b[0] || (a[0] == b[0] && Less(a[1..], b[1..])))
  }

  lemma {:induction false} LessTransitive(a: Key, b: Key, c: Key)
    requires Less(a, b) && Less(b, c)
    ensures Less(a, c)
  {
    if a != [] && a[0] == b[0] && b[0] == c[0] {
      LessTransitive(a[1..], b[1..], c[1..]);
    }
  }

  /** Of two keys exactly one is smaller, unless they are the same. */
  lemma {:induction false} LessTotal(a: Key, b: Key)
    ensures Less(a, b) <==> !(a == b) && !Less(b, a)
  {
    if a != [] && b != [] {
      assert a == [a[0]] + a[1..] && b == [b[0]] + b[1..];
      LessTotal(a[1..], b[1..]);
    }
  }

  /** The order is that of the first byte in which two keys differ, or of their lengths if there is none. */
  lemma {:induction false} LessIs(a: Key, b: Key)
    ensures Less(a, b) <==> exists i :: DiffersAt(a, b, i)
  {
    if b != [] && a == [] {
      assert DiffersAt(a, b, 0);
    } else if b != [] && a[0] != b[0] {
      assert a[0] < b[0] <==> DiffersAt(a, b, 0);
    } else if b != [] {
      LessIs(a[1..], b[1..]);
      DiffersShift(a, b);
    }
  }

  /** Equal before position `i`, and there `a` ends or has the smaller byte. */
  ghost predicate DiffersAt(a: Key, b: Key, i: nat) {
    i <= |a| && i < |b| && a[..i] == b[..i] && (i == |a| || a[i] < b[i])
  }

  lemma {:induction false} DiffersShift(a: Key, b: Key)
    requires a != [] && b != [] && a[0] == b[0]
    ensures (exists i :: DiffersAt(a, b, i)) <==> exists i :: DiffersAt(a[1..], b[1..], i)
  {
    if i: nat :| DiffersAt(a, b, i) {
      assert i > 0 && a[1..][..i - 1] == a[..i][1..] && b[1..][..i - 1] == b[..i][1..];
      assert DiffersAt(a[1..], b[1..], i - 1);
    }
    if i: nat :| DiffersAt(a[1..], b[1..], i) {
      assert a[..i + 1] == [a[0]] + a[1..][..i] && b[..i + 1] == [b[0]] + b[1..][..i];
      assert DiffersAt(a, b, i + 1);
    }
  }

  ghost predicate Ascending(keys: seq<Key>) {
    forall i, j :: 0 <= i < j < |keys| ==> Less(keys[i], keys[j])
  }

  /** `keys` lists exactly the keys of `s`, each once, in order. */
  ghost predicate Lists(keys: seq<Key>, s: set<Key>) {
    Ascending(keys) && forall k :: k in keys <==> k in s
  }

  /** There is only one ordered list of a set of keys. */
  lemma {:induction false} ListUnique(a: seq<Key>, b: seq<Key>, s: set<Key>)
    requires Lists(a, s) && Lists(b, s)
    ensures a == b
  {
    EmptyList(a, s);
    EmptyList(b, s);
    if a != [] {
      SameFirst(a, b, s);
      TailLists(a, s);
      TailLists(b, s);
      ListUnique(a[1..], b[1..], s - {a[0]});
      assert a == [a[0]] + a[1..] && b == [b[0]] + b[1..];
    }
  }

  lemma {:induction false} EmptyList(a: seq<Key>, s: set<Key>)
    requires Lists(a, s)
    ensures a == [] <==> s == {}
  {
    if a != [] {
      assert a[0] in s;
    }
  }

  lemma {:induction false} SameFirst(a: seq<Key>, b: seq<Key>, s: set<Key>)
    requires Lists(a, s) && Lists(b, s) && a != [] && b != []
    ensures a[0] == b[0]
  {
    assert a[0] in s && b[0] in s;
    var i :| 0 <= i < |b| && b[i] == a[0];
    var j :| 0 <= j < |a| && a[j] == b[0];
    if i > 0 && j > 0 {
      assert Less(b[0], b[i]) && Less(a[0], a[j]);
      LessTotal(a[0], b[0]);
      assert false;
    }
  }

  lemma {:induction false} TailLists(a: seq<Key>, s: set<Key>)
    requires Lists(a, s) && a != []
    ensures Lists(a[1..], s - {a[0]})
  {
    assert a == [a[0]] + a[1..];
    forall k | k in a[1..] ensures k != a[0] {
      var i :| 1 <= i < |a| && a[i] == k;
      assert Less(a[0], a[i]);
      LessTotal(a[0], a[i]);
    }
  }

  class RoleProvider {
    var whitelistedAddresses: set<Key>

    constructor ()
      ensures whitelistedAddresses == {}
    {
      whitelistedAddresses := {};
    }

    /** Replaces the whitelist by the fetched addresses; one malformed address keeps the old whitelist. */
    method ProcessResults(results: seq<Key>) returns (ok: bool)
      modifies this
      ensures ok <==> forall i :: 0 <= i < |results| ==> |results[i]| == ADDRESS_LEN
      ensures whitelistedAddresses == if ok then (set k | k in results) else old(whitelistedAddresses)
    {
      var temporaryMap: set<Key> := {};
      for i := 0 to |results|
        invariant forall j :: 0 <= j < i ==> |results[j]| == ADDRESS_LEN
        invariant temporaryMap == set k | k in results[..i]
        invariant whitelistedAddresses == old(whitelistedAddresses)
      {
        if |results[i]| != ADDRESS_LEN {
          return false;
        }
        assert results[..i + 1] == results[..i] + [results[i]];
        temporaryMap := temporaryMap + {results[i]};
      }
      assert results[..|results|] == results;
      whitelistedAddresses := temporaryMap;
      ok := true;
    }

    /** The keys in whatever order the map gives them, then sorted. */
    method SortedPublicKeys() returns (keys: seq<Key>)
      ensures Lists(keys, whitelistedAddresses)
    {
      keys := [];
      var todo := whitelistedAddresses;
      while todo != {}
        invariant todo <= whitelistedAddresses
        invariant Lists(keys, whitelistedAddresses - todo)
        decreases todo
      {
        var k :| k in todo;
        assert whitelistedAddresses - (todo - {k}) == whitelistedAddresses - todo + {k};
        keys := Insert(keys, k, whitelistedAddresses - todo);
        todo := todo - {k};
      }
      assert whitelistedAddresses - todo == whitelistedAddresses;
    }
  }

  method Insert(keys: seq<Key>, k: Key, ghost s: set<Key>) returns (longer: seq<Key>)
    requires Lists(keys, s) && k !in s
    ensures Lists(longer, s + {k})
  {
    var i := 0;
    while i < |keys| && Less(keys[i], k)
      invariant 0 <= i <= |keys|
      invariant forall j :: 0 <= j < i ==> Less(keys[j], k)
    {
      i := i + 1;
    }
    longer := keys[..i] + [k] + keys[i..];
    InsertLists(keys, k, i, s);
  }

  lemma {:induction false} InsertLists(keys: seq<Key>, k: Key, i: nat, s: set<Key>)
    requires Lists(keys, s) && k !in s && i <= |keys|
    requires forall j :: 0 <= j < i ==> Less(keys[j], k)
    requires i < |keys| ==> !Less(keys[i], k)
    ensures Lists(keys[..i] + [k] + keys[i..], s + {k})
  {
    var longer := keys[..i] + [k] + keys[i..];
    forall j | i <= j < |keys| ensures Less(k, keys[j]) {
      assert keys[i] in s;
      LessTotal(k, keys[i]);
      if j > i {
        LessTransitive(k, keys[i], keys[j]);
      }
    }
    forall p, q | 0 <= p < q < |longer| ensures Less(longer[p], longer[q]) {
      assert p != i ==> longer[p] == keys[if p < i then p else p - 1];
      assert q != i ==> longer[q] == keys[if q < i then q else q - 1];
    }
    forall x ensures x in longer <==> x in s + {k} {
      assert keys == keys[..i] + keys[i..];
      assert x in keys <==> x in keys[..i] || x in keys[i..];
    }
  }

  /** A relayer's own test; `hash` turns the interval number into a pseudo-random value. */
  predicate TurnOf(keys: seq<Key>, hash: nat -> nat, now: nat, interval: nat, self: Key)
    requires interval > 0
  {
    keys != [] && keys[hash(now / interval) % |keys|] == self
  }

  method MyTurnAsLeader(provider: RoleProvider, hash: nat -> nat, now: nat, interval: nat, self: Key)
    returns (isLeader: bool)
    requires interval > 0
    ensures isLeader <==>
            exists keys :: Lists(keys, provider.whitelistedAddresses) && TurnOf(keys, hash, now, interval, self)
  {
    var keys := provider.SortedPublicKeys();
    if |keys| == 0 {
      isLeader := false;
    } else {
      isLeader := keys[hash(now / interval) % |keys|] == self;
    }
    if !isLeader {
      forall other | Lists(other, provider.whitelistedAddresses) ensures !TurnOf(other, hash, now, interval, self) {
        ListUnique(keys, other, provider.whitelistedAddresses);
      }
    }
  }

  /**
   * Relayers that fetched the same non-empty set of addresses, in any order and with any repetitions, agree throughout
   * interval number `t` on one leader: the member of the set that the hash of `t` points to in the sorted list.
   */
  lemma {:induction false} OneLeader(
    a: seq<Key>, b: seq<Key>, keysA: seq<Key>, keysB: seq<Key>, hash: nat -> nat, nowA: nat, nowB: nat,
    interval: nat, t: nat)
    requires interval > 0 && t * interval <= nowA < (t + 1) * interval && t * interval <= nowB < (t + 1) * interval
    requires a != [] && (set k | k in a) == (set k | k in b)
    requires Lists(keysA, set k | k in a) && Lists(keysB, set k | k in b)
    ensures keysA != [] && keysA[hash(t) % |keysA|] in a
    ensures forall self ::
              && (TurnOf(keysA, hash, nowA, interval, self) <==> self == keysA[hash(t) % |keysA|])
              && (TurnOf(keysB, hash, nowB, interval, self) <==> self == keysA[hash(t) % |keysA|])
  {
    ListUnique(keysA, keysB, set k | k in a);
    assert a[0] in keysA;
    IntervalNumber(nowA, interval, t);
    IntervalNumber(nowB, interval, t);
    assert keysA[hash(t) % |keysA|] in keysA;
  }

  lemma {:induction false} IntervalNumber(now: nat, interval: nat, t: nat)
    requires interval > 0 && t * interval <= now < (t + 1) * interval
    ensures now / interval == t
  {
    var q := now / interval;
    assert q * interval <= now < (q + 1) * interval;
    if q < t {
      Multiples(q + 1, t, interval);
    } else if t < q {
      Multiples(t + 1, q, interval);
    }
  }

  lemma {:induction false} Multiples(a: nat, b: nat, c: nat)
    requires a <= b
    ensures a * c <= b * c
  {
  }
}
