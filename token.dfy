/**
 * The `MemeCoin` Solidity contract that both scripts compile and deploy: a
 * partial EIP-20 (ERC-20 Token Standard) ledger with a minting constructor,
 * the public `balanceOf` getter and `transfer`.
 *
 * A reverted call leaves the contract's storage and its event log as they
 * were; the model writes a revert as an Outcome and keeps the old state.
 */
module Token {
  import opened Units
  import opened Ledger
  import opened Wrappers

  /** `event Transfer(address indexed from, address indexed to, uint256 value)`. */
  datatype Event = Transfer(from: Address, to: Address, value: Uint256)

  /** Why a call reverted: a `require` message, or a compiler-inserted panic code. */
  datatype Revert = Error(reason: string) | Panic(code: nat)

  /** What a call to a state-changing function ends with. */
  datatype Outcome = Returned(success: bool) | Reverted(revert: Revert)

  /** The message of the `require` in `transfer`. */
  const NOT_ENOUGH_BALANCE: string := "Not enough balance"

  /** Solidity 0.8's panic code for checked arithmetic that overflowed. */
  const PANIC_OVERFLOW: nat := 0x11

  /**
   * The constructor's `initialSupply * 10 ** uint256(decimals)` under
   * checked arithmetic: the product of whole tokens and 10^18, or a panic
   * when it does not fit a uint256.
   */
  function MintedSupply(initialSupply: Uint256): (r: Result<Uint256, Revert>)
    ensures r.Ok? <==> initialSupply * BASE_UNIT < UINT256_LIMIT
    ensures r.Ok? ==> r.value == ToBaseUnits(initialSupply) && ToWholeUnits(r.value) == initialSupply
    ensures r.Err? ==> r.error == Panic(PANIC_OVERFLOW)
  {
    BaseUnitMatchesDecimals();
    UnitRoundTrip(initialSupply);
    var supply := initialSupply * Pow(10, DECIMALS);
    if supply < UINT256_LIMIT then Ok(supply) else Err(Panic(PANIC_OVERFLOW))
  }

  /** The largest `initialSupply` the constructor accepts. */
  const MAX_INITIAL_SUPPLY: nat := (UINT256_LIMIT - 1) / BASE_UNIT

  /** Construction reverts exactly when more than MAX_INITIAL_SUPPLY whole tokens are asked for. */
  lemma MintRevertsAboveMax(initialSupply: Uint256)
    ensures MintedSupply(initialSupply).Ok? <==> initialSupply <= MAX_INITIAL_SUPPLY
  {
  }

  class MemeCoin {
    const name: string := "MemeCoin"
    const symbol: string := "MEME"
    const decimals: nat := DECIMALS

    var totalSupply: nat
    /** `mapping(address => uint256) public balanceOf`; a missing key holds 0. */
    var balanceOf: map<Address, nat>
    /** The `Transfer` events the contract has emitted, oldest first. */
    var events: seq<Event>

    /**
     * The ledger invariant: the supply fits a uint256 and is exactly the sum
     * of all balances, so each balance fits a uint256 too.
     */
    ghost predicate Valid()
      reads this
    {
      totalSupply < UINT256_LIMIT && Sum(balanceOf) == totalSupply
    }

    /**
     * `constructor(uint256 initialSupply)` run by `deployer` (`msg.sender`).
     * Deploy checks the multiplication; this constructor is the success path.
     */
    constructor (deployer: Address, initialSupply: Uint256)
      requires MintedSupply(initialSupply).Ok?
      ensures Valid()
      ensures totalSupply == MintedSupply(initialSupply).value
      ensures balanceOf == map[deployer := totalSupply]
      ensures forall a: Address :: a != deployer ==> Get(balanceOf, a) == 0
      ensures events == [Event.Transfer(ZERO_ADDRESS, deployer, totalSupply)]
    {
      BaseUnitMatchesDecimals();
      var supply := initialSupply * Pow(10, decimals);
      totalSupply := supply;
      balanceOf := map[deployer := supply];
      events := [Event.Transfer(ZERO_ADDRESS, deployer, supply)];
      new;
      SumRemove(balanceOf, deployer);
      assert balanceOf - {deployer} == map[];
    }

    /** The public getter `balanceOf(owner)`: never more than the whole supply. */
    function BalanceOf(owner: Address): (b: Uint256)
      reads this
      requires Valid()
      ensures b <= totalSupply
    {
      GetAtMostSum(balanceOf, owner);
      Get(balanceOf, owner)
    }

    /**
     * `transfer(to, value)` called by `sender`. The `require` reverts with
     * "Not enough balance" when the sender holds less than `value`; otherwise
     * the sender is debited, then `to` is credited with a checked `+=`, one
     * event is emitted and `true` is returned. The overflow panic of the
     * credit is modelled and proved never to happen.
     */
    method Transfer(sender: Address, to: Address, value: Uint256) returns (r: Outcome)
      requires Valid()
      modifies this
      ensures Valid()
      ensures totalSupply == old(totalSupply)
      ensures r == if old(BalanceOf(sender)) >= value then Returned(true)
                   else Reverted(Error(NOT_ENOUGH_BALANCE))
      ensures r.Reverted? ==> balanceOf == old(balanceOf) && events == old(events)
      ensures r.Returned? ==> events == old(events) + [Event.Transfer(sender, to, value)]
      ensures r.Returned? && sender != to ==>
                BalanceOf(sender) == old(BalanceOf(sender)) - value &&
                BalanceOf(to) == old(BalanceOf(to)) + value
      ensures sender == to ==> BalanceOf(sender) == old(BalanceOf(sender))
      ensures forall a: Address :: a != sender && a != to ==> BalanceOf(a) == old(BalanceOf(a))
    {
      var saved := balanceOf;
      var senderBalance := Get(balanceOf, sender);
      if senderBalance < value {
        return Reverted(Error(NOT_ENOUGH_BALANCE));
      }
      CreditCannotOverflow(balanceOf, sender, to, value);
      SumUpdate(balanceOf, sender, senderBalance - value);
      balanceOf := balanceOf[sender := senderBalance - value];
      var credited := Get(balanceOf, to) + value;
      if credited >= UINT256_LIMIT {
        balanceOf := saved;
        return Reverted(Panic(PANIC_OVERFLOW));
      }
      SumUpdate(balanceOf, to, credited);
      balanceOf := balanceOf[to := credited];
      events := events + [Event.Transfer(sender, to, value)];
      return Returned(true);
    }
  }

  /** The result of a contract-creation transaction. */
  datatype Deployment = Deployed(token: MemeCoin) | CreationReverted(revert: Revert)

  /**
   * Creating the contract: the constructor either reverts on the checked
   * multiplication, and no contract exists, or yields a fresh MemeCoin whose
   * deployer holds the whole supply and whose log holds the mint event.
   */
  method Deploy(deployer: Address, initialSupply: Uint256) returns (d: Deployment)
    ensures d.CreationReverted? <==> initialSupply > MAX_INITIAL_SUPPLY
    ensures d.CreationReverted? ==> d.revert == Panic(PANIC_OVERFLOW)
    ensures d.Deployed? ==>
              fresh(d.token) && d.token.Valid() &&
              d.token.totalSupply == ToBaseUnits(initialSupply) &&
              d.token.balanceOf == map[deployer := d.token.totalSupply] &&
              d.token.events == [Event.Transfer(ZERO_ADDRESS, deployer, d.token.totalSupply)]
  {
    MintRevertsAboveMax(initialSupply);
    match MintedSupply(initialSupply)
    case Err(e) =>
      d := CreationReverted(e);
    case Ok(_) =>
      var token := new MemeCoin(deployer, initialSupply);
      d := Deployed(token);
  }
}
