/**
 * The state and the button handlers of the deployer GUI, without the
 * widgets. The module-level globals the handlers read and write are fields
 * of a Session: the text of the contract-address entry (`contract_address_var`,
 * which the user can also edit), the global `contract_instance` (unbound
 * until a deployment's receipt arrives) and the balance label.
 *
 * Every call into web3 that talks to the node, signs or waits is an input:
 * the nonce it read, and what the node answered or None when it raised.
 */
module GuiInteract {
  import opened Units
  import opened Wrappers
  import opened Transactions

  /** The supply the GUI deploys with: `MemeCoin.constructor(1_000_000)`. */
  const GUI_INITIAL_SUPPLY: Uint256 := 1_000_000

  /** Why a handler showed an error dialog instead of a result. */
  datatype GuiError =
    | NotDeployed              // "Contract not deployed yet."
    | InstanceUnbound          // NameError: `contract_instance` was never assigned
    | AmountNotEncodable       // web3 refuses a uint256 argument outside [0, 2^256)
    | NodeFailure              // a node, signing or receipt call raised

  /** The text of the exception `check_balance` raises when no address is recorded. */
  const NOT_DEPLOYED_MESSAGE: string := "Contract not deployed yet."

  /** Python's text for the NameError of reading the unassigned global. */
  const UNBOUND_MESSAGE: string := "name 'contract_instance' is not defined"

  /**
   * The text `str(e)` puts in the error dialog, where the scripts or Python
   * fix it; the texts of web3 and node errors come from those libraries.
   */
  function Message(e: GuiError): (m: Option<string>)
    ensures m.Some? <==> e.NotDeployed? || e.InstanceUnbound?
    ensures m == Some(NOT_DEPLOYED_MESSAGE) <==> e.NotDeployed?
  {
    match e
    case NotDeployed => Some(NOT_DEPLOYED_MESSAGE)
    case InstanceUnbound => Some(UNBOUND_MESSAGE)
    case _ => None
  }

  function HexDigit(d: nat): char
    requires d < 16
  {
    "0123456789abcdef"[d]
  }

  /** The last `count` hexadecimal digits of `n`, most significant first. */
  function HexDigits(n: nat, count: nat): (s: string)
    ensures |s| == count
    ensures forall i | 0 <= i < |s| :: s[i] in "0123456789abcdef"
    decreases count
  {
    if count == 0 then "" else HexDigits(n / 16, count - 1) + [HexDigit(n % 16)]
  }

  /** An address as web3 renders `receipt.contractAddress`: never empty. */
  function AddressText(a: Address): (s: string)
    ensures |s| == 42 && s[..2] == "0x"
    ensures forall i | 2 <= i < 42 :: s[i] in "0123456789abcdef"
  {
    "0x" + HexDigits(a, 40)
  }

  /**
   * What `check_balance` shows: the guard on the address entry, then the
   * global contract instance, then the node's answer to `balanceOf(wallet)`,
   * floored to whole MEME.
   */
  function BalanceDisplay(addressEntry: string, instance: Option<Address>,
                          onChainBalance: Option<Uint256>): (r: Result<nat, GuiError>)
    ensures r == Err(NotDeployed) <==> addressEntry == ""
    ensures r == Err(InstanceUnbound) <==> addressEntry != "" && instance.None?
    ensures r.Ok? <==> addressEntry != "" && instance.Some? && onChainBalance.Some?
    ensures r == Err(NodeFailure) <==> addressEntry != "" && instance.Some? && onChainBalance.None?
    ensures r.Ok? ==> r.value * BASE_UNIT <= onChainBalance.value < (r.value + 1) * BASE_UNIT
    ensures r.Err? ==> (Message(r.error) == Some(NOT_DEPLOYED_MESSAGE) <==> addressEntry == "")
  {
    if addressEntry == "" then Err(NotDeployed)
    else if instance.None? then Err(InstanceUnbound)
    else if onChainBalance.None? then Err(NodeFailure)
    else Ok(ToWholeUnits(onChainBalance.value))
  }

  class Session {
    /** `contract_address_var`, the text of the contract-address entry. */
    var addressEntry: string
    /** The global `contract_instance`: the address it was built for, None while unbound. */
    var instance: Option<Address>
    /** The whole-MEME figure in `balance_label_var`, None while the label is empty. */
    var balanceShown: Option<nat>

    /** The state when the window opens: empty entry and label, no contract. */
    constructor ()
      ensures addressEntry == "" && instance.None? && balanceShown.None?
    {
      addressEntry := "";
      instance := None;
      balanceShown := None;
    }

    /** The user types into the contract-address entry, which is bound to `contract_address_var`. */
    method EditAddressEntry(text: string)
      modifies this
      ensures addressEntry == text
      ensures instance == old(instance) && balanceShown == old(balanceShown)
    {
      addressEntry := text;
    }

    /**
     * `deploy_contract`: builds the creation record with the nonce read just
     * before, then signs, sends and waits. `receipt` is the receipt's
     * `contractAddress`, or None when one of those calls raised; on success
     * the instance and the entry are set, on failure nothing changes. The
     * receipt's status is not checked, so a reverted creation is recorded too.
     */
    method DeployContract(wallet: Address, chainId: nat, nonce: nat, receipt: Option<Address>)
      returns (tx: TxParams, r: Result<Address, GuiError>)
      modifies this
      ensures tx == DeployTx(wallet, chainId, nonce, GUI_INITIAL_SUPPLY)
      ensures r == if receipt.Some? then Ok(receipt.value) else Err(NodeFailure)
      ensures r.Ok? ==> instance == Some(r.value) && addressEntry == AddressText(r.value)
      ensures r.Err? ==> instance == old(instance) && addressEntry == old(addressEntry)
      ensures balanceShown == old(balanceShown)
    {
      tx := DeployTx(wallet, chainId, nonce, GUI_INITIAL_SUPPLY);
      if receipt.None? {
        return tx, Err(NodeFailure);
      }
      instance := receipt;
      addressEntry := AddressText(receipt.value);
      r := Ok(receipt.value);
    }

    /**
     * `check_balance`: on success the label shows the balance floored to
     * whole MEME; on failure the label is left as it was.
     */
    method CheckBalance(onChainBalance: Option<Uint256>) returns (r: Result<nat, GuiError>)
      modifies this
      ensures r == BalanceDisplay(old(addressEntry), old(instance), onChainBalance)
      ensures balanceShown == if r.Ok? then Some(r.value) else old(balanceShown)
      ensures addressEntry == old(addressEntry) && instance == old(instance)
    {
      r := BalanceDisplay(addressEntry, instance, onChainBalance);
      if r.Ok? {
        balanceShown := Some(r.value);
      }
    }

    /**
     * `transfer_tokens`: the entered whole amount becomes base units, the
     * transfer record is built with the nonce read just before, and after
     * the receipt arrives the success dialog reports `amount // 10**18`.
     * `confirmed` is false when signing, sending or waiting raised. The
     * receipt's status is not checked, so a reported transfer may have
     * reverted on chain; the result says only what the dialog shows.
     */
    method TransferTokens(wallet: Address, chainId: nat, nonce: nat, recipient: Address,
                          entered: int, confirmed: bool)
      returns (tx: Option<TxParams>, r: Result<nat, GuiError>)
      ensures instance.None? ==> tx.None? && r == Err(InstanceUnbound)
      ensures instance.Some? && !(0 <= ToBaseUnits(entered) < UINT256_LIMIT) ==>
                tx.None? && r == Err(AmountNotEncodable)
      ensures tx.Some? <==> instance.Some? && 0 <= ToBaseUnits(entered) < UINT256_LIMIT
      ensures tx.Some? ==>
                tx.value == TransferTx(wallet, chainId, nonce, instance.value, recipient,
                                       ToBaseUnits(entered))
      ensures r.Ok? <==> tx.Some? && confirmed
      ensures tx.Some? && !confirmed ==> r == Err(NodeFailure)
      ensures r.Ok? ==> r.value == entered
    {
      var amount := ToBaseUnits(entered);
      if instance.None? {
        return None, Err(InstanceUnbound);
      }
      if amount < 0 || amount >= UINT256_LIMIT {
        return None, Err(AmountNotEncodable);
      }
      var record := TransferTx(wallet, chainId, nonce, instance.value, recipient, amount);
      if !confirmed {
        return Some(record), Err(NodeFailure);
      }
      UnitRoundTrip(entered);
      return Some(record), Ok(ToWholeUnits(amount));
    }
  }
}
