/** Vocabulary shared by the contract models: machine widths, outcomes and runs. */
module Common {

  const U32_MAX: nat := 0xFFFF_FFFF
  const U64_MAX: nat := 0xFFFF_FFFF_FFFF_FFFF
  const U128_MAX: nat := 0xFFFF_FFFF_FFFF_FFFF_FFFF_FFFF_FFFF_FFFF

  type u32 = x: nat | x <= U32_MAX
  type u64 = x: nat | x <= U64_MAX
  type u128 = x: nat | x <= U128_MAX

  type byte = x: nat | x < 256
  type Bytes = seq<byte>
  type Symbol = string

  /** An account or contract address; only equality matters. */
  type Address(==, !new)

  datatype Option<+T> = None | Some(value: T)

  datatype Result<+T, +E> = Success(value: T) | Failure(error: E)

  /** A call either commits the state its specification gives, or aborts,
      reports the error and leaves the storage as it was. */
  ghost predicate Commits<S, E>(spec: Result<S, E>, pre: S, post: S, reported: Option<E>) {
    match spec
    case Success(s) => post == s && reported == None
    case Failure(e) => post == pre && reported == Some(e)
  }

  function SatAdd(x: u32, y: u32): u32 {
    if x + y <= U32_MAX then x + y else U32_MAX
  }

  function SatSub(x: u64, y: u64): u64 {
    if x >= y then x - y else 0
  }

  /** Ledger time never goes backwards over a run, and starts no earlier than `clock`. */
  ghost predicate Clocked<T>(txs: seq<T>, now: T -> nat, clock: nat) {
    && (forall i | 0 <= i < |txs| :: clock <= now(txs[i]))
    && (forall i, j | 0 <= i < j < |txs| :: now(txs[i]) <= now(txs[j]))
  }

  lemma ClockedTail<T>(txs: seq<T>, now: T -> nat, clock: nat)
    requires Clocked(txs, now, clock) && txs != []
    ensures Clocked(txs[1..], now, now(txs[0])) && clock <= now(txs[0])
  {
  }

  lemma ClockedAppend<T>(a: seq<T>, b: seq<T>, now: T -> nat, clock: nat)
    requires Clocked(a, now, clock) && Clocked(b, now, EndTime(a, now, clock))
    ensures Clocked(a + b, now, clock)
  {
    forall i, j | 0 <= i < j < |a + b| ensures now((a + b)[i]) <= now((a + b)[j]) {
      if i < |a| <= j {
        assert now(a[i]) <= EndTime(a, now, clock) <= now(b[j - |a|]);
      }
    }
  }

  /** The clock at the end of a run. */
  ghost function EndTime<T>(txs: seq<T>, now: T -> nat, clock: nat): nat {
    if txs == [] then clock else now(txs[|txs| - 1])
  }

}

/** Sums of the values of a finite map. */
module Sums {

  ghost function Sum<K>(m: map<K, nat>): nat
    decreases |m|
  {
    if m == map[] then 0
    else
      var k :| k in m;
      assert (m - {k}).Keys == m.Keys - {k};
      m[k] + Sum(m - {k})
  }

  lemma {:induction false} SumRemove<K>(m: map<K, nat>, k: K)
    requires k in m
    ensures Sum(m) == m[k] + Sum(m - {k})
    decreases |m|
  {
    var j :| j in m && Sum(m) == m[j] + Sum(m - {j});
    if j != k {
      assert (m - {j}).Keys == m.Keys - {j};
      assert (m - {k}).Keys == m.Keys - {k};
      SumRemove(m - {j}, k);
      SumRemove(m - {k}, j);
      assert (m - {j}) - {k} == (m - {k}) - {j};
    }
  }

  lemma SumPut<K>(m: map<K, nat>, k: K, v: nat)
    ensures Sum(m[k := v]) == (if k in m then Sum(m) - m[k] else Sum(m)) + v
  {
    SumRemove(m[k := v], k);
    if k in m {
      SumRemove(m, k);
      assert m[k := v] - {k} == m - {k};
    } else {
      assert m[k := v] - {k} == m;
    }
  }

  lemma {:induction false} SumEmpty<K>(m: map<K, nat>)
    requires forall k <- m.Keys :: m[k] == 0
    ensures Sum(m) == 0
    decreases |m|
  {
    if m != map[] {
      var j :| j in m && Sum(m) == m[j] + Sum(m - {j});
      assert (m - {j}).Keys == m.Keys - {j};
      SumEmpty(m - {j});
    }
  }
}
