/**
 * A Solidity `mapping(address => uint256)` as a finite Dafny map: an address
 * that is not a key reads as 0, exactly as an untouched storage slot does.
 * Sum is the total of all balances, the quantity the token keeps equal to
 * its `totalSupply`.
 */
module Ledger {
  import opened Units

  /** Reading the mapping: a missing key is a zero balance. */
  function Get(m: map<Address, nat>, a: Address): nat
  {
    if a in m then m[a] else 0
  }

  /** The sum of every balance in the mapping. */
  ghost function Sum(m: map<Address, nat>): nat
    decreases |m|
  {
    if m == map[] then 0
    else
      var a :| a in m;
      assert (m - {a}).Keys == m.Keys - {a};
      m[a] + Sum(m - {a})
  }

  /** Sum does not depend on which key it peels off first. */
  lemma {:induction false} SumRemove(m: map<Address, nat>, a: Address)
    requires a in m
    ensures Sum(m) == m[a] + Sum(m - {a})
    decreases |m|
  {
    var b :| b in m && Sum(m) == m[b] + Sum(m - {b});
    if b != a {
      assert (m - {b}).Keys == m.Keys - {b};
      assert (m - {a}).Keys == m.Keys - {a};
      SumRemove(m - {b}, a);
      SumRemove(m - {a}, b);
      assert m - {b} - {a} == m - {a} - {b};
    }
  }

  /** Writing `v` at `a` changes the sum by exactly the difference at `a`. */
  lemma SumUpdate(m: map<Address, nat>, a: Address, v: nat)
    ensures Sum(m[a := v]) + Get(m, a) == Sum(m) + v
  {
    var m' := m[a := v];
    SumRemove(m', a);
    if a in m {
      SumRemove(m, a);
      assert m' - {a} == m - {a};
    } else {
      assert m' - {a} == m;
    }
  }

  /** No single balance exceeds the sum of all balances. */
  lemma GetAtMostSum(m: map<Address, nat>, a: Address)
    ensures Get(m, a) <= Sum(m)
  {
    if a in m {
      SumRemove(m, a);
    }
  }

  /**
   * The checked `balanceOf[to] += value` after `balanceOf[from] -= value`
   * cannot overflow while the balances sum to less than 2^256: the credited
   * balance is at most the old sum.
   */
  lemma CreditCannotOverflow(m: map<Address, nat>, from: Address, to: Address, value: nat)
    requires Sum(m) < UINT256_LIMIT
    requires Get(m, from) >= value
    ensures Get(m[from := Get(m, from) - value], to) + value < UINT256_LIMIT
  {
    var debited := m[from := Get(m, from) - value];
    SumUpdate(m, from, Get(m, from) - value);
    GetAtMostSum(debited, to);
  }
}
