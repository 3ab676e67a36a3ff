# MemeCoin launcher, modelled in Dafny

The repository holds two Python scripts around one small Solidity contract,
`MemeCoin`. The contract is a partial implementation of EIP-20 (the ERC-20
Token Standard). `deploy_token.py` compiles the contract and deploys it with an
initial supply of one million tokens. `gui_interact.py` embeds the same
contract in a Tk window with three buttons: deploy, check balance, transfer.

This project models three things:

- the contract itself: the minting constructor, the public `balanceOf` getter
  and `transfer`, under Solidity 0.8 checked uint256 arithmetic;
- the conversion between whole MEME and base units (`× 10**18`, `// 10**18`);
- the transaction records handed to web3 and the state the GUI handlers keep.

Modules, leaf first:

- `Wrappers` (wrappers.dfy): Option and Result.
- `Units` (units.dfy): the uint256 and address bounds, `decimals`, the
  conversions, gwei.
- `Ledger` (ledger.dfy): a Solidity mapping as a Dafny map in which a missing
  key reads 0, and the sum of all balances with its lemmas.
- `Token` (token.dfy): the `MemeCoin` contract as a class. Its fields are
  `totalSupply`, the `balanceOf` map and the event log. `Valid()` says that the
  balances sum to `totalSupply` and that `totalSupply` is below 2^256.
- `Transactions` (transactions.dfy): the creation and `transfer` records.
- `GuiInteract` (gui.dfy): the GUI's globals as a `Session` class, and its
  three handlers.
- `DeployToken` (deploy.dfy): the deployment script, followed onto the chain.

A revert in Solidity undoes every write of the call. The model never commits a
write on a path that reverts, so a reverted call leaves the same state.
`transfer` debits the sender and then credits the recipient, as two map
updates in that order. A self-transfer therefore goes through both steps and
ends where it started. The credit uses a checked `+=`. The model keeps its
overflow panic as a real branch and proves, from the ledger invariant, that the
branch is never taken.

Calls to the node, to the signer and to the compiler are not modelled. Their
results become parameters: the nonce that `get_transaction_count` returned,
the receipt's `contractAddress`, the value `balanceOf(...).call()` returned,
and whether signing, sending and waiting raised. The script has no local nonce
counter, no retry, no timeout and no receipt-status check, so the model has
none either.

## Model

| member | source | states |
|---|---|---|
| `Units.BaseUnitMatchesDecimals` | blockchain/gui_interact.py:30-38 | the GUI's literal factor `10 ** 18` equals the contract's `10 ** decimals` with `decimals = 18` |
| `Units.Uint256LimitIsPowerOfTwo` | blockchain/gui_interact.py:31 | the bound used for `uint256` is exactly 2^256 |
| `Units.ToBaseUnits` | blockchain/gui_interact.py:103 | a nonnegative whole amount gives nonnegative base units, always a multiple of 10^18 |
| `Units.ToWholeUnits` | blockchain/gui_interact.py:95 | the shown whole amount `w` of a balance `b` satisfies `w × 10^18 ≤ b < (w+1) × 10^18` (floor division) |
| `Units.UnitRoundTrip` | blockchain/gui_interact.py:103-117 | entering `a` whole MEME and reporting `amount // 10**18` gives back `a` |
| `Units.GweiToWei` | blockchain/gui_interact.py:75 | the wei amount is divisible by 10^9 and divides back to the gwei amount |
| `Ledger.CreditCannotOverflow` | blockchain/gui_interact.py:44-46 | when balances sum below 2^256 and the sender can pay, the credit after the debit stays below 2^256 |
| `Token.MintedSupply` | blockchain/deploy_token.py:44 | the checked `initialSupply * 10 ** 18` succeeds exactly when the product is below 2^256, and then it is that product and converts back to `initialSupply`; otherwise it panics with code 0x11 |
| `Token.MintRevertsAboveMax` | blockchain/deploy_token.py:43-44 | construction succeeds exactly up to `(2^256 - 1) // 10^18` whole tokens |
| `Token.MemeCoin.constructor` | blockchain/gui_interact.py:37-41 | the supply is `initialSupply × 10^18`; the deployer holds all of it and every other address 0; exactly one `Transfer(0x0, deployer, totalSupply)` is logged; the ledger invariant holds |
| `Token.MemeCoin.BalanceOf` | blockchain/gui_interact.py:33 | the public getter never returns more than `totalSupply` |
| `Token.MemeCoin.Transfer` | blockchain/gui_interact.py:43-49 | reverts with "Not enough balance" exactly when the sender holds less than `value`, and then changes no balance and logs nothing; otherwise returns true, the sender loses `value`, the recipient gains `value` (no change when they are the same), every other balance is unchanged, exactly `Transfer(sender, to, value)` is appended, `totalSupply` is unchanged and the balances still sum to it |
| `Token.Deploy` | blockchain/deploy_token.py:43-47 | contract creation reverts with panic 0x11 exactly when `initialSupply` exceeds the maximum; otherwise a fresh contract in which the deployer holds the supply of `initialSupply × 10^18` and one mint event is logged |
| `Transactions.DeployTx` | blockchain/deploy_token.py:71-77 | the creation record has no `to`; `from` is the wallet; it carries the configured chain id and the nonce just read; gas is 3,000,000 at 10,000,000,000 wei |
| `Transactions.TransferTx` | blockchain/gui_interact.py:106-112 | the transfer record goes to the contract and calls `transfer(recipient, amount)` from the wallet, with the configured chain id and the nonce just read; gas is 100,000 at 10,000,000,000 wei |
| `Transactions.DeployAndTransferRecords` | blockchain/gui_interact.py:71-112 | the two records agree except in recipient, gas and call; only the creation lacks a recipient; the creation's fee ceiling (0.03 ether) is thirty times the transfer's (0.001 ether) |
| `GuiInteract.AddressText` | blockchain/gui_interact.py:84 | a deployed address written into the entry is `0x` followed by 40 lower-case hexadecimal digits, so never empty |
| `GuiInteract.Message` | blockchain/gui_interact.py:92-97 | the dialog text is fixed for the two errors Python or the script word ("Contract not deployed yet." only for the empty entry, the `NameError` for the unbound instance) and left to the library for the others |
| `GuiInteract.BalanceDisplay` | blockchain/gui_interact.py:90-97 | fails with "Contract not deployed yet." exactly when the address entry is empty; fails on the unbound `contract_instance` exactly when the entry is filled but nothing was deployed; fails as a node error exactly when the `.call()` raised; otherwise shows `w` whole MEME with `w × 10^18 ≤ balance < (w+1) × 10^18` |
| `GuiInteract.Session.constructor` | blockchain/gui_interact.py:64-65 | the window opens with an empty entry and label and no contract instance |
| `GuiInteract.Session.EditAddressEntry` | blockchain/gui_interact.py:125 | typing into the entry changes its text and nothing else |
| `GuiInteract.Session.DeployContract` | blockchain/gui_interact.py:68-87 | the creation record is built for 1,000,000 tokens with the nonce just read; when a receipt arrives, `contract_instance` and the entry are set to its address; when a call raises, nothing changes |
| `GuiInteract.Session.CheckBalance` | blockchain/gui_interact.py:90-97 | on success the label shows the displayed amount; on failure the label is unchanged; the entry and the instance never change |
| `GuiInteract.Session.TransferTokens` | blockchain/gui_interact.py:100-119 | an unbound instance fails before anything is built; an amount whose base units fall outside [0, 2^256) is refused; otherwise the transfer record for `entered × 10^18` base units is built, when signing, sending or waiting raises the handler fails, and otherwise the dialog reports exactly the entered amount |
| `DeployToken.InitialSupplyMints` | blockchain/deploy_token.py:70 | `initial_supply = 1_000_000` mints 10^24 base units, below 2^256 |
| `DeployToken.RunScript` | blockchain/deploy_token.py:67-87 | the script signs the creation record for 1,000,000 tokens; when sending or waiting raises, it yields no deployment; when the record was mined, the chain holds a contract whose supply of 10^24 belongs to the wallet, every other address holding 0, with one mint event from the zero address |
| `DeployToken.DeployThenTransfer` | blockchain/deploy_token.py:43-55 | after the script's deployment, a transfer of `a` whole MEME to another address succeeds exactly when `a ≤ 1,000,000`, gives the recipient `a × 10^18` and leaves the wallet `(1,000,000 − a) × 10^18`; otherwise it reverts with "Not enough balance" and the recipient holds 0 |

## Left out

- Network calls: `Web3.HTTPProvider`, `is_connected`, `get_transaction_count`,
  `send_raw_transaction`, `wait_for_transaction_receipt` and `.call()` are
  foreign calls to the node. Their results are parameters.
- Signing: `sign_transaction` is ECDSA signing inside eth-account, which is opaque.
- Compilation: `install_solc`, `set_solc_version` and `compile_source` run an
  external compiler. The bytecode and ABI are not modelled; the model runs the
  contract's source semantics directly.
- Configuration: `load_dotenv` and `os.getenv` are configuration input. The
  wallet, chain id and key are parameters.
- Widgets: the Tk window, buttons, labels, `messagebox` dialogs and
  `mainloop` are user interface. A dialog is a `Result` value.
- Text parsing and rendering are not modelled: `int(amount_entry.get())`
  raising on non-numeric text, recipient strings that are not addresses, the
  decimal formatting of the balance label and the success message.
- `GuiInteract.AddressText` writes lower-case hexadecimal. web3 writes the
  EIP-55 mixed-case checksum form; only the text being non-empty matters to
  the handlers.
- `GuiInteract.Message` gives no text for web3 encoding errors and node
  errors, because those libraries word them.
- `DeployToken.RunScript` takes as an input whether sending and waiting
  returned. When they raise, the model says nothing about whether the chain
  later ran the record. When they return, the record is taken to have been
  executed, since the script does not read the receipt's status.
- `GuiInteract.Session.TransferTokens` does not model which library error web3
  raises for an amount it cannot encode as uint256. It only refuses the amount.
- Receipt status: both scripts accept any receipt without checking its status.
  The GUI model therefore claims nothing about whether a reported deployment
  or transfer executed on chain. The deployment script's model is the one
  place that follows a mined record onto the chain (next line but two).
- Gas accounting and fees paid: the chain charging gas and a transaction
  running out of gas are not modelled.
- The ERC-20 members `approve`, `transferFrom` and `allowance`, and the
  `Approval` event, do not exist in the contract.
- The public `name`, `symbol` and `decimals` getters are constant fields of
  the class.
