/**
 * The deployment script: read the wallet's nonce, build the creation record
 * for `initial_supply = 1_000_000`, sign it, send it and wait for the
 * receipt. Signing, sending and waiting are calls into web3 and the node;
 * the model follows the record to the chain, where the constructor runs with
 * the wallet as `msg.sender`.
 */
module DeployToken {
  import opened Units
  import opened Wrappers
  import opened Transactions
  import opened Token

  /** `initial_supply = 1_000_000` whole MEME. */
  const INITIAL_SUPPLY: Uint256 := 1_000_000

  /** The supply the script mints: 10^24 base units, well below 2^256. */
  lemma InitialSupplyMints()
    ensures MintedSupply(INITIAL_SUPPLY) == Ok(1_000_000_000_000_000_000_000_000)
    ensures 1_000_000_000_000_000_000_000_000 < UINT256_LIMIT
  {
  }

  /**
   * The script from the nonce read onwards. The record it signs is the
   * creation record for INITIAL_SUPPLY. `mined` says whether
   * `send_raw_transaction` and `wait_for_transaction_receipt` returned; when
   * either raises the script stops and the model claims nothing about the
   * chain. When the record was mined, the constructor ran with the wallet as
   * `msg.sender` and cannot revert: the wallet holds all 10^24 base units and
   * the log holds the one mint event from the zero address.
   */
  method RunScript(wallet: Address, chainId: nat, nonce: nat, mined: bool)
    returns (tx: TxParams, d: Option<Deployment>)
    ensures tx == DeployTx(wallet, chainId, nonce, INITIAL_SUPPLY)
    ensures d.Some? <==> mined
    ensures d.Some? ==> d.value.Deployed?
    ensures d.Some? && d.value.Deployed? ==>
              var token := d.value.token;
              && fresh(token) && token.Valid()
              && token.totalSupply == 1_000_000_000_000_000_000_000_000
              && token.BalanceOf(wallet) == token.totalSupply
              && (forall a: Address :: a != wallet ==> token.BalanceOf(a) == 0)
              && token.events == [Event.Transfer(ZERO_ADDRESS, wallet, token.totalSupply)]
  {
    tx := DeployTx(wallet, chainId, nonce, INITIAL_SUPPLY);
    if !mined {
      return tx, None;
    }
    InitialSupplyMints();
    var created := Deploy(tx.from, tx.call.initialSupply);
    d := Some(created);
  }

  /**
   * A client of the contract model: after the script's deployment has been
   * mined, the wallet sends `amount` whole MEME to another address. The transfer
   * succeeds for every amount up to the minted million, the recipient gains
   * exactly the sent base units and the supply is unchanged; asking for more
   * than a million reverts with "Not enough balance" and moves nothing.
   */
  method DeployThenTransfer(wallet: Address, chainId: nat, nonce: nat, recipient: Address,
                            amount: nat)
    returns (token: MemeCoin, r: Outcome)
    requires recipient != wallet
    requires amount * BASE_UNIT < UINT256_LIMIT
    ensures token.Valid()
    ensures token.totalSupply == ToBaseUnits(INITIAL_SUPPLY)
    ensures r.Returned? <==> amount <= INITIAL_SUPPLY
    ensures r.Returned? ==> token.BalanceOf(recipient) == ToBaseUnits(amount)
    ensures r.Returned? ==> token.BalanceOf(wallet) == ToBaseUnits(INITIAL_SUPPLY - amount)
    ensures r.Reverted? ==> r.revert == Error(NOT_ENOUGH_BALANCE) && token.BalanceOf(recipient) == 0
  {
    var tx, d := RunScript(wallet, chainId, nonce, true);
    token := d.value.token;
    var value := ToBaseUnits(amount);
    assert ToBaseUnits(INITIAL_SUPPLY - amount) == token.totalSupply - value <== amount <= INITIAL_SUPPLY;
    assert value <= token.totalSupply <==> amount <= INITIAL_SUPPLY;
    assert token.BalanceOf(recipient) == 0;
    r := token.Transfer(wallet, recipient, value);
  }
}
