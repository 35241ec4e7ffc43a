# Fungible-token transfer preparation and top-level dispatch, in Dafny

This project models two parts of `near-cli-rs`, the interactive NEAR command-line
assistant:

- **The tail of the "send fungible tokens" wizard** (`src/commands/tokens/send_ft/preparation_ft_transfer.rs`).
  The gas stage's interactive prompt accepts at most 300 TeraGas; the stage
  extends the previous stage's context with the gas. The deposit stage builds the terminal
  *Action Context*. That context lists the accounts involved (token contract,
  signer, receiver) and holds four callbacks for the transaction driver.
  The first callback resolves the amount, which is either an exact amount or
  "my whole balance", the latter read from the network. It then builds the
  transaction: a NEP-141 `ft_transfer` call, preceded by a NEP-145
  `storage_deposit` call of 0.1 NEAR when the receiver is not registered
  with the token contract.
- **The top-level dispatcher** (`src/commands/mod.rs`). It holds the five command
  families and their menu labels, the conversion from the parsed command line,
  the menu selection, and the hand-off of a blank unsigned transaction to the
  chosen family.

Layout, one module per file:

- `wrappers.dfy`, module `Wrappers`: `Option` and `Result`. `:-` plays the role of Rust's `?`.
- `rust_text.dfy`, module `RustText`: the Rust standard-library text operations
  the transfer depends on: `str::trim`, `u128::to_string` and `str::parse::<u128>`.
- `primitives.dfy`, module `Primitives`: the NEAR values involved.
  - Gas is a u64 count of gas units, with 1 TeraGas = 10^12.
  - Deposits are a u128 count of yoctoNEAR, with 1 milliNEAR = 10^21.
  - Also: fungible-token amounts, function-call actions, transactions, and JSON answers.
  - A `NetworkConfig` is the network's name plus the answers its RPC endpoint gives to the three read-only queries.
- `preparation_ft_transfer.dfy`, module `PreparationFtTransfer`: the two stages, amount
  resolution, the action-list builder, the Action Context and its callbacks.
- `commands.dfy`, module `Commands`: the dispatcher.

How the model is built:

- `get_prepopulated_transaction` builds its argument object one key at a
  time and returns early on the null branch. It is therefore the method
  `GetPrepopulatedTransaction`.
- That method is proved equal to the declarative
  `PrepopulatedTransactionOf`. The branch, order, constant and field-presence
  properties are proved about that function. The method tests the memo
  with `Trim`; the function uses `IsBlank`; `Trim`'s contract connects the two.
- Everything else in the two source files is record construction and `match`,
  so it is modelled as functions.
- The network is a parameter: a record of total functions that each return a result or an `RpcError`.
- The prompts are parameters: an answer, or a cancellation.
- The four callbacks are data records holding exactly what the closures capture.
  Apply-functions (`Prepopulate`, `OnBeforeSigning`, `OnBeforeSending`,
  `OnAfterSending`) run them.

Three facts about the Rust code that the model keeps:

- Only the validator of the interactive gas prompt checks the 300 TeraGas
  ceiling. A gas given as a command-line flag reaches
  `PrepaidGasContext::from_previous_context` unchecked, so
  `PrepaidGasFromPrevious` accepts any gas.
- The resolved maximum is the raw integer balance, with the token's decimals
  and symbol recorded beside it (`from_params_ft`).
- The after-sending callback resolves the amount a second time, on the network
  and at the time it runs, whatever the outcome. A failure there is the callback's
  error even when the transaction failed. For a "whole balance" transfer, the
  reported amount is whatever balance the network reports at that moment.

## Model

| member | source | states |
|---|---|---|
| `RustText.TrimStart` | src/commands/tokens/send_ft/preparation_ft_transfer.rs:207 | the result is a suffix of the input, what was dropped is all whitespace, and the result does not start with whitespace |
| `RustText.TrimEnd` | src/commands/tokens/send_ft/preparation_ft_transfer.rs:207 | the result is a prefix of the input, what was dropped is all whitespace, and the result does not end with whitespace |
| `RustText.Trim` | src/commands/tokens/send_ft/preparation_ft_transfer.rs:207 | `trim()` is empty exactly when the whole string is whitespace; otherwise it starts and ends with a non-whitespace character |
| `RustText.DecimalString` | src/commands/tokens/send_ft/preparation_ft_transfer.rs:205 | `to_string()` of an amount is a non-empty string of decimal digits with no leading zero (zero itself is exactly "0") that denotes the amount |
| `RustText.ParseU128` | src/commands/tokens/send_ft/preparation_ft_transfer.rs:286 | `parse::<u128>()` succeeds exactly on an optional '+' followed by one or more digits denoting a value below 2^128, and then yields that value |
| `RustText.ParseDisplayRoundTrip` | src/commands/tokens/send_ft/preparation_ft_transfer.rs:286 | parsing the decimal form of any u128 gives it back |
| `RustText.DecimalStringInjective` | src/commands/tokens/send_ft/preparation_ft_transfer.rs:205 | different amounts are written differently in the `amount` argument |
| `RustText.ParseRejectsOverflow` | src/commands/tokens/send_ft/preparation_ft_transfer.rs:286 | a balance of 2^128 is refused, not wrapped |
| `PreparationFtTransfer.PrepaidGasFromPrevious` | src/commands/tokens/send_ft/preparation_ft_transfer.rs:33-47 | the gas stage always succeeds; forgetting its gas gives back the previous context exactly, and its gas is the scope's gas |
| `PreparationFtTransfer.GasStageDeterministic` | src/commands/tokens/send_ft/preparation_ft_transfer.rs:38-46 | a gas-stage context is fully determined by the context it extends plus its gas (nothing else is added) |
| `PreparationFtTransfer.ValidateGas` | src/commands/tokens/send_ft/preparation_ft_transfer.rs:58-68 | Valid if and only if gas is at most 300 TeraGas; otherwise Invalid with "You need to enter a value of no more than 300 TeraGas" |
| `PreparationFtTransfer.StartingGasAccepted` | src/commands/tokens/send_ft/preparation_ft_transfer.rs:57 | the prompt's starting value, 100 TeraGas, passes the validator |
| `PreparationFtTransfer.InputGas` | src/commands/tokens/send_ft/preparation_ft_transfer.rs:51-71 | a cancelled prompt is an error; otherwise the answer is returned as `Some`, and it is at most 300 TeraGas |
| `PreparationFtTransfer.InputDeposit` | src/commands/tokens/send_ft/preparation_ft_transfer.rs:172-183 | a cancelled prompt is an error; otherwise the answer is returned as `Some`, unvalidated |
| `PreparationFtTransfer.GetAmountFt` | src/commands/tokens/send_ft/preparation_ft_transfer.rs:261-292 | an exact amount comes back unchanged; the maximum succeeds exactly when the balance query answers a JSON string, the metadata query succeeds and the string parses as a u128, and then carries that value with the metadata's decimals and symbol; a failed balance query is reported before the metadata query, and a failed metadata query before the parse |
| `PreparationFtTransfer.ExactAmountIgnoresNetwork` | src/commands/tokens/send_ft/preparation_ft_transfer.rs:268 | resolving an exact amount gives the same result on every network (no query is needed) |
| `PreparationFtTransfer.MaxAmountReadsOnlyItsQueries` | src/commands/tokens/send_ft/preparation_ft_transfer.rs:269-290 | two networks that give the same answers to the balance query for the signer and to the metadata query for the contract resolve the maximum identically |
| `PreparationFtTransfer.MaxAmountOfReportedBalance` | src/commands/tokens/send_ft/preparation_ft_transfer.rs:270-289 | a reported balance `n` in decimal resolves to exactly `n` with the metadata's decimals and symbol |
| `PreparationFtTransfer.FtTransferArgs` | src/commands/tokens/send_ft/preparation_ft_transfer.rs:200-210 | the keys are `receiver_id` and `amount`, plus `memo` exactly when the memo is present and not blank after trimming; `receiver_id` is the receiver, `amount` is the decimal amount, and `memo` is the memo verbatim, untrimmed |
| `PreparationFtTransfer.FtTransferAction` | src/commands/tokens/send_ft/preparation_ft_transfer.rs:211-219 | method `ft_transfer`, the transfer arguments, the context gas in gas units, and the user's deposit in yoctoNEAR |
| `PreparationFtTransfer.StorageDepositAction` | src/commands/tokens/send_ft/preparation_ft_transfer.rs:221-246 | method `storage_deposit`, arguments `{"account_id": receiver}`, the transfer's gas, and a fixed deposit of 10^23 yoctoNEAR (100 milliNEAR) that does not depend on user input |
| `PreparationFtTransfer.PrepopulatedTransactionOf` | src/commands/tokens/send_ft/preparation_ft_transfer.rs:221-258 | succeeds exactly when the `storage_balance_of` query succeeds with JSON, and otherwise returns that query's error; signer is the signer and receiver the token contract; one or two actions, two exactly when the answer is null; the last is always the `ft_transfer` call and the first of two is the `storage_deposit` call |
| `PreparationFtTransfer.GetPrepopulatedTransaction` | src/commands/tokens/send_ft/preparation_ft_transfer.rs:190-259 | key-by-key construction with the trimmed-memo test, the registration query and the early return produce exactly the declarative transaction `PrepopulatedTransactionOf` |
| `PreparationFtTransfer.RegistrationIffNull` | src/commands/tokens/send_ft/preparation_ft_transfer.rs:238-258 | a null registration answer gives exactly `[storage_deposit, ft_transfer]`; any other JSON answer gives exactly `[ft_transfer]` |
| `PreparationFtTransfer.MemoExamples` | src/commands/tokens/send_ft/preparation_ft_transfer.rs:206-210 | a memo of "  " or no memo leaves `memo` out; "thanks" and " thanks " are each stored verbatim |
| `PreparationFtTransfer.Prepopulate` | src/commands/tokens/send_ft/preparation_ft_transfer.rs:103-121 | the prepopulate callback first resolves the amount and fails with that error if resolution fails; otherwise it is the builder applied to the resolved amount and the captured signer, contract, receiver, memo, deposit and gas |
| `PreparationFtTransfer.PrepopulateShape` | src/commands/tokens/send_ft/preparation_ft_transfer.rs:103-121 | a transaction the callback produces is signed by the signer, goes to the token contract, and has one or two actions; the last action transfers the resolved amount to the receiver with the captured gas and deposit |
| `PreparationFtTransfer.OnBeforeSigning` | src/commands/tokens/send_ft/preparation_ft_transfer.rs:155-157 | the before-signing hook returns `Ok(())` for every transaction and network |
| `PreparationFtTransfer.OnBeforeSending` | src/commands/tokens/send_ft/preparation_ft_transfer.rs:158-160 | the before-sending hook returns the empty string for every signed transaction and network |
| `PreparationFtTransfer.OnAfterSending` | src/commands/tokens/send_ft/preparation_ft_transfer.rs:124-145 | fails exactly when re-resolving the amount fails, with that error; otherwise it reports a transfer exactly when the status is `SuccessValue`, naming the signer, the resolved amount, the contract and the receiver |
| `PreparationFtTransfer.DepositContextFromPrevious` | src/commands/tokens/send_ft/preparation_ft_transfer.rs:89-170 | the deposit stage always succeeds; the Action Context keeps the global context, lists `[ft_contract, signer, receiver]` in that order, and its two closures capture the previous context's fields plus the chosen deposit |
| `PreparationFtTransfer.IntoActionContext` | src/commands/tokens/send_ft/preparation_ft_transfer.rs:166-170 | the Action Context handed on is exactly the one the deposit stage wrapped: wrapping it again gives back the same deposit context |
| `PreparationFtTransfer.TransferChain` | src/commands/tokens/send_ft/preparation_ft_transfer.rs:33-163 | composing the gas and deposit stages gives an Action Context whose prepopulate callback, on any network, builds the transaction from the original accounts, amount and memo with the chosen gas and deposit; its after-sending callback reports the transfer between the original accounts |
| `PreparationFtTransfer.TenUsdcToRegisteredReceiver` | src/commands/tokens/send_ft/preparation_ft_transfer.rs:200-258 | alice.near sending 10 USDC (6 decimals, raw 10000000) to a registered bob.near gives one `ft_transfer` action with amount "10000000" and no memo |
| `PreparationFtTransfer.TenUsdcToUnregisteredReceiver` | src/commands/tokens/send_ft/preparation_ft_transfer.rs:238-251 | with bob.near unregistered, the list is `storage_deposit` with 10^23 yoctoNEAR followed by the same `ft_transfer` action |
| `Commands.FromCli` | src/commands/mod.rs:43-66 | only defined off `GenerateShellCompletions`; keeps the family for Add, ConstructTransaction, Execute, Transfer and Utils, with that family's arguments converted |
| `Commands.FromCliInjective` | src/commands/mod.rs:43-66 | command lines of different families never convert to the same command, and two command lines that convert to the same command have arguments with the same conversion |
| `Commands.VariantsDistinct` | src/commands/mod.rs:28-41 | the menu order lists each family once |
| `Commands.MenuItems` | src/commands/mod.rs:71-75 | exactly five labels, each the label of the family at the same position: "Add access key", "Construct a new transaction", "Execute function (contract method)", "Transfer tokens", "Helpers" |
| `Commands.DefaultCli` | src/commands/mod.rs:82-98 | each family's command line with `Default::default()` arguments: it names that family, never shell completion |
| `Commands.ChooseCommand` | src/commands/mod.rs:69-100 | index `i` yields family `variants[i]`, built from that family's default command-line value (so never the shell-completion command) |
| `Commands.ChooseCommandMatchesLabel` | src/commands/mod.rs:76-99 | the label at the chosen index is the label of the resulting family; the default index 0 yields Add |
| `Commands.IndexOf` | src/commands/mod.rs:30-41 | every family has a position in the menu order |
| `Commands.ChooseCommandBijective` | src/commands/mod.rs:82-99 | each family is produced by exactly one menu index |
| `Commands.BlankTransaction` | src/commands/mod.rs:103-110 | empty signer and receiver, nonce 0, no actions, the ED25519 key of 32 zero bytes, and the default (all-zero) block hash |
| `Commands.Process` | src/commands/mod.rs:102-124 | the command's own arguments go to its family; Add, ConstructTransaction, Execute and Transfer all get the same blank transaction, and Utils gets none |
| `Commands.CommandLineAndMenuAgree` | src/commands/mod.rs:82-123 | choosing a family from the menu dispatches exactly as giving that family on the command line, with default arguments |

## Left out

- Terminal I/O: rendering the prompts and the menu, `eprintln!`/`println!`, and the `.unwrap()` on the menu's I/O error. A prompt's result is an input (an answer or a cancellation), and the menu's result is an index into its items.
- `inquire`'s re-asking until the validator accepts: `InputGas` requires that an answer passed `ValidateGas`, because that is what the prompt guarantees.
- The JSON-RPC view calls (`blocking_call_view_function`, `get_ft_balance`, `params_ft_metadata`) and broadcasting. This is network I/O. Each read-only query's answer is an oracle field of `NetworkConfig`, answering at finality "final".
- The wire form of the argument objects (`serde_json::to_vec` bytes and key order). Each object is a `map<string, string>`. `to_vec` of a string map cannot fail, so its `?` has no error path.
- The text forms of `NearGas`, `NearToken` and `FungibleToken` (parsing "100 TeraGas" and `Display`) are defined in files that are not part of this model. `from_params_ft` is modelled as the plain record constructor.
- The sub-families' `into` conversions and `process` implementations (add, construct_transaction, execute, transfer, utils), and shell-completion generation, are not part of this model. `Process` returns which family is called and with what, rather than running it.
- `GlobalContext` is only carried forward, so its contents are not modelled.
- Account-id validity rules are not modelled: an account id is any string.
- `Arc` closure capture, `tracing::instrument`, and the wording of `wrap_err_with` messages. Errors are tagged values carrying the contract and network the message names.
- The `async` nature of `process`. Dispatch is sequential.
- The transaction driver, which runs the four callbacks in order, is not part of the two modelled files.
