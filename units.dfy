/**
 * Fixed-width integer bounds of the EVM and the token's unit conversions.
 *
 * The contract is compiled with `pragma solidity ^0.8.0`, so uint256
 * arithmetic is checked: a result outside [0, 2^256) reverts instead of
 * wrapping. The GUI converts between whole MEME and base units with the
 * literal factor 10**18, which matches the contract's `decimals = 18`.
 */
module Units {

  /** 2^256: the first value a uint256 cannot hold (Uint256LimitIsPowerOfTwo checks the literal). */
  const UINT256_LIMIT: nat := 0x1_0000_0000_0000_0000_0000_0000_0000_0000_0000_0000_0000_0000_0000_0000_0000_0000

  /** 2^160: the first value a 20-byte address cannot hold. */
  const ADDRESS_LIMIT: nat := 0x1_0000_0000_0000_0000_0000_0000_0000_0000_0000

  type Uint256 = n: nat | n < UINT256_LIMIT

  type Address = a: nat | a < ADDRESS_LIMIT

  /** `address(0)`, the `from` of the minting event. */
  const ZERO_ADDRESS: Address := 0

  /** The contract's `uint8 public decimals = 18`. */
  const DECIMALS: nat := 18

  /** The literal `10 ** 18` the GUI multiplies and divides by. */
  const BASE_UNIT: nat := 1_000_000_000_000_000_000

  /** One gwei in wei, as web3's `to_wei(_, 'gwei')` uses it. */
  const GWEI: nat := 1_000_000_000

  function Pow(base: nat, exp: nat): nat
  {
    if exp == 0 then 1 else base * Pow(base, exp - 1)
  }

  lemma {:induction false} PowAdd(base: nat, m: nat, n: nat)
    ensures Pow(base, m + n) == Pow(base, m) * Pow(base, n)
  {
    if n > 0 {
      PowAdd(base, m, n - 1);
      calc {
        Pow(base, m + n);
        base * Pow(base, m + n - 1);
        base * (Pow(base, m) * Pow(base, n - 1));
        Pow(base, m) * (base * Pow(base, n - 1));
        Pow(base, m) * Pow(base, n);
      }
    }
  }

  /**
   * The GUI's literal factor `10 ** 18` is the one the contract derives from
   * `decimals` as `10 ** uint256(decimals)`.
   */
  lemma BaseUnitMatchesDecimals()
    ensures Pow(10, DECIMALS) == BASE_UNIT
  {
    assert Pow(10, 3) == 1000;
    PowAdd(10, 3, 3);
    PowAdd(10, 6, 6);
    PowAdd(10, 12, 6);
  }

  /**
   * A check on the constant: the hexadecimal literal UINT256_LIMIT, which
   * bounds Uint256, is 2^256.
   */
  lemma Uint256LimitIsPowerOfTwo()
    ensures Pow(2, 256) == UINT256_LIMIT
  {
    assert Pow(2, 4) == 16;
    PowAdd(2, 4, 4);
    PowAdd(2, 8, 8);
    PowAdd(2, 16, 16);
    PowAdd(2, 32, 32);
    PowAdd(2, 64, 64);
    PowAdd(2, 128, 128);
  }

  /** Whole MEME typed into the GUI, as base units: `int(amount) * 10**18`. */
  function ToBaseUnits(whole: int): (units: int)
    ensures whole >= 0 ==> units >= 0
    ensures units % BASE_UNIT == 0
  {
    whole * BASE_UNIT
  }

  /**
   * Base units shown as whole MEME: Python's `balance // (10 ** 18)`, which
   * floors. Dafny's `/` on a nonnegative dividend and positive divisor floors
   * as well, so the two agree on every balance the contract can hold.
   */
  function ToWholeUnits(units: nat): (whole: nat)
    ensures whole * BASE_UNIT <= units < (whole + 1) * BASE_UNIT
  {
    units / BASE_UNIT
  }

  /** Entering `a` whole MEME and reporting `amount // 10**18` gives back `a`. */
  lemma UnitRoundTrip(whole: nat)
    ensures ToWholeUnits(ToBaseUnits(whole)) == whole
  {
  }

  /** `web3.to_wei(amount, 'gwei')`. */
  function GweiToWei(gwei: nat): (wei: nat)
    ensures wei / GWEI == gwei && wei % GWEI == 0
  {
    gwei * GWEI
  }
}
