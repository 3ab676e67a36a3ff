/**
 * The transaction records both scripts hand to web3's `build_transaction`.
 * The caller supplies `from`, `chainId`, `gas`, `gasPrice` and `nonce`;
 * web3 adds the call data and, for a function call, `to` = the contract's
 * address. A contract creation has no `to`. The model keeps the call itself
 * (constructor or `transfer` with its arguments) in place of its ABI encoding.
 */
module Transactions {
  import opened Units
  import opened Wrappers

  /** What the transaction asks the chain to run. */
  datatype Call =
    | Construct(initialSupply: Uint256)
    | TransferCall(recipient: Address, value: Uint256)

  datatype TxParams = TxParams(
    from: Address,
    to: Option<Address>,
    chainId: nat,
    gas: nat,
    gasPrice: nat,
    nonce: nat,
    call: Call)

  /** The gas limit of a contract creation: `'gas': 3000000`. */
  const DEPLOY_GAS: nat := 3_000_000

  /** The gas limit of a `transfer` call: `'gas': 100000`. */
  const TRANSFER_GAS: nat := 100_000

  /** `web3.to_wei('10', 'gwei')`, the price of every transaction. */
  const GAS_PRICE: nat := GweiToWei(10)

  /** The most a transaction can cost its sender: every unit of gas at its price. */
  function MaxFee(tx: TxParams): nat
  {
    tx.gas * tx.gasPrice
  }

  /**
   * The record of a contract creation, built from the wallet, the configured
   * chain id and the nonce read just before: no recipient, the deployment
   * gas limit, 10 gwei.
   */
  function DeployTx(wallet: Address, chainId: nat, nonce: nat, initialSupply: Uint256): (tx: TxParams)
    ensures tx.to.None? && tx.call == Construct(initialSupply)
    ensures tx.from == wallet && tx.chainId == chainId && tx.nonce == nonce
    ensures tx.gas == DEPLOY_GAS && tx.gasPrice == 10_000_000_000
  {
    TxParams(wallet, None, chainId, DEPLOY_GAS, GAS_PRICE, nonce, Construct(initialSupply))
  }

  /**
   * The record of a `transfer(recipient, value)` call on the deployed
   * contract: sent to the contract, the transfer gas limit, 10 gwei.
   */
  function TransferTx(wallet: Address, chainId: nat, nonce: nat, contract: Address,
                      recipient: Address, value: Uint256): (tx: TxParams)
    ensures tx.to == Some(contract) && tx.call == TransferCall(recipient, value)
    ensures tx.from == wallet && tx.chainId == chainId && tx.nonce == nonce
    ensures tx.gas == TRANSFER_GAS && tx.gasPrice == 10_000_000_000
  {
    TxParams(wallet, Some(contract), chainId, TRANSFER_GAS, GAS_PRICE, nonce,
             TransferCall(recipient, value))
  }

  /** A record is a contract creation exactly when it has no recipient. */
  predicate IsCreation(tx: TxParams)
  {
    tx.to.None?
  }

  /**
   * The two records differ only in their recipient, gas limit and call: a
   * creation reserves thirty times the fee of a transfer, 0.03 ether against
   * 0.001 ether, and only the creation has no recipient.
   */
  lemma DeployAndTransferRecords(wallet: Address, chainId: nat, nonce: nat, initialSupply: Uint256,
                                 contract: Address, recipient: Address, value: Uint256)
    ensures var d, t := DeployTx(wallet, chainId, nonce, initialSupply),
                        TransferTx(wallet, chainId, nonce, contract, recipient, value);
            && IsCreation(d) && !IsCreation(t)
            && d.(to := t.to, gas := t.gas, call := t.call) == t
            && MaxFee(d) == 30 * MaxFee(t)
            && MaxFee(d) == 3 * BASE_UNIT / 100
            && MaxFee(t) == BASE_UNIT / 1000
  {
  }
}
