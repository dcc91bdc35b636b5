// The parts of the execution environment every contract relies on: addresses,
// 256-bit words, storage maps whose absent entries read as zero, and sums over them.
module Evm {

  datatype Option<+T> = None | Some(value: T)

  const MAX_UINT256: nat := 0xffff_ffff_ffff_ffff_ffff_ffff_ffff_ffff_ffff_ffff_ffff_ffff_ffff_ffff_ffff_ffff
  const MAX_UINT64: nat := 0xffff_ffff_ffff_ffff

  type uint256 = n: nat | n <= MAX_UINT256
  type uint64 = n: nat | n <= MAX_UINT64

  // Accounts are callers outside the system: key holders and foreign contracts.
  // Contracts are the addresses of the system's own contracts, deployed or still to be deployed.
  datatype Address = Zero | Account(id: nat) | Contract(id: nat)

  type Positive = n: nat | 0 < n witness 1

  // A storage mapping: an entry that is zero is not stored, so equal contents are equal maps.
  function Get<K(!new)>(m: map<K, Positive>, k: K): (v: nat)
  {
    if k in m then m[k] else 0
  }

  function Put<K(!new)>(m: map<K, Positive>, k: K, v: nat): (r: map<K, Positive>)
    ensures forall x :: Get(r, x) == if x == k then v else Get(m, x)
  {
    if v == 0 then m - {k} else m[k := v]
  }

  lemma SameStorage<K(!new)>(m: map<K, Positive>, n: map<K, Positive>)
    requires forall k :: Get(m, k) == Get(n, k)
    ensures m == n
  {
    forall k ensures k in m <==> k in n {
      assert Get(m, k) == Get(n, k);
    }
    forall k | k in m ensures m[k] == n[k] {
      assert Get(m, k) == Get(n, k);
    }
  }

  // ---- Finite sums ----

  ghost function Sum<K(!new)>(m: map<K, nat>): nat
  {
    if m == map[] then 0 else
      var k :| k in m;
      m[k] + Sum(m - {k})
  }

  lemma {:induction false} SumRemove<K(!new)>(m: map<K, nat>, k: K)
    requires k in m
    ensures Sum(m) == m[k] + Sum(m - {k})
    decreases |m|
  {
    var j :| j in m && Sum(m) == m[j] + Sum(m - {j});
    if j != k {
      SumRemove(m - {j}, k);
      SumRemove(m - {k}, j);
      assert m - {j} - {k} == m - {k} - {j};
    }
  }

  lemma SumOfOne<K(!new)>(k: K, v: nat)
    ensures Sum(map[k := v]) == v
  {
    SumRemove(map[k := v], k);
    assert map[k := v] - {k} == map[];
  }

  lemma SumPut<K(!new)>(m: map<K, Positive>, k: K, v: nat)
    ensures Sum(Put(m, k, v)) == Sum(m) - Get(m, k) + v
    ensures Get(m, k) <= Sum(m)
  {
    assert Put(m, k, v) - {k} == m - {k};
    if k in m {
      SumRemove(m, k);
    } else {
      assert m - {k} == m;
    }
    if v != 0 {
      SumRemove(Put(m, k, v), k);
    }
  }

  lemma {:induction false} SumSubset<K(!new)>(m: map<K, nat>, n: map<K, nat>)
    requires forall k | k in m :: k in n && m[k] <= n[k]
    ensures Sum(m) <= Sum(n)
    decreases |m|
  {
    if m != map[] {
      var k :| k in m;
      SumRemove(m, k);
      SumRemove(n, k);
      SumSubset(m - {k}, n - {k});
    }
  }

  lemma UnionMinus<K(!new)>(m: map<K, nat>, n: map<K, nat>, k: K)
    requires m.Keys !! n.Keys && k in m
    ensures (m + n) - {k} == (m - {k}) + n
    ensures k in m + n && (m + n)[k] == m[k]
  {}

  lemma Smaller<K(!new)>(m: map<K, nat>, n: map<K, nat>, k: K)
    requires m.Keys !! n.Keys && k in m
    ensures (m - {k}).Keys !! n.Keys && |m - {k}| < |m|
  {}

  lemma {:induction false} SumUnion<K(!new)>(m: map<K, nat>, n: map<K, nat>)
    requires m.Keys !! n.Keys
    ensures Sum(m + n) == Sum(m) + Sum(n)
    decreases |m|
  {
    if m == map[] {
      assert m + n == n;
    } else {
      var k :| k in m;
      UnionMinus(m, n, k);
      Smaller(m, n, k);
      SumRemove(m, k);
      SumRemove(m + n, k);
      SumUnion(m - {k}, n);
    }
  }

  ghost function Greatest(ns: set<nat>): (g: nat)
    ensures forall n | n in ns :: n <= g
    ensures if ns == {} then g == 0 else g in ns
  {
    if ns == {} then 0 else
    var n :| n in ns;
    var others := Greatest(ns - {n});
    assert forall k | k in ns && k != n :: k in ns - {n};
    if others <= n then n else others
  }
}
