/** The last two stages of the "send fungible tokens" wizard: the gas stage and
    the deposit stage, the Action Context the deposit stage hands to the
    transaction driver, and the two operations its callbacks run, amount
    resolution and the NEP-141 `ft_transfer` action-list builder (with the
    NEP-145 `storage_deposit` registration that precedes it when the receiver
    is not registered with the token contract). */
module PreparationFtTransfer {
  import opened Wrappers
  import opened RustText
  import opened Primitives

  /** The failures the two stages and their callbacks can report. */
  datatype Error =
    | PromptFailed
    | BalanceQueryFailed(contract: AccountId, network: string, cause: RpcError)
    | BalanceNotAString(contract: AccountId)
    | MetadataQueryFailed(contract: AccountId, network: string, cause: RpcError)
    | BalanceNotU128(text: string)
    | StorageBalanceQueryFailed(contract: AccountId, network: string, cause: RpcError)
    | StorageBalanceNotJson(contract: AccountId)

  /** Stands for the program-wide `GlobalContext` (configuration, offline flag),
      whose contents are not part of this model: the stages only carry it forward. */
  datatype GlobalContext = GlobalContext(id: nat)

  // ---------------------------------------------------------------------------
  // Stage contexts
  // ---------------------------------------------------------------------------

  /** The context the amount stage produced (the input of the gas stage). */
  datatype AmountFtContext = AmountFtContext(
    globalContext: GlobalContext,
    signerAccountId: AccountId,
    ftContractAccountId: AccountId,
    receiverAccountId: AccountId,
    ftTransferAmount: FungibleTokenTransferAmount,
    memo: Option<string>)

  /** The context the gas stage produces. */
  datatype PrepaidGasContext = PrepaidGasContext(
    globalContext: GlobalContext,
    signerAccountId: AccountId,
    ftContractAccountId: AccountId,
    receiverAccountId: AccountId,
    ftTransferAmount: FungibleTokenTransferAmount,
    gas: NearGas,
    memo: Option<string>)

  /** The value each stage obtains, from a flag or from the prompt. */
  datatype PrepaidGasScope = PrepaidGasScope(gas: NearGas)
  datatype DepositScope = DepositScope(deposit: NearToken)

  /** A gas-stage context seen as the amount-stage context it extends. */
  function ForgetGas(c: PrepaidGasContext): AmountFtContext {
    AmountFtContext(c.globalContext, c.signerAccountId, c.ftContractAccountId,
                    c.receiverAccountId, c.ftTransferAmount, c.memo)
  }

  /** `PrepaidGasContext::from_previous_context`: every field of the previous
      context is carried over verbatim and only `gas` is added; it never fails. */
  function PrepaidGasFromPrevious(previous: AmountFtContext, scope: PrepaidGasScope): (r: Result<PrepaidGasContext, Error>)
    ensures r.Ok?
    ensures ForgetGas(r.value) == previous
    ensures r.value.gas == scope.gas
  {
    Ok(PrepaidGasContext(previous.globalContext, previous.signerAccountId,
                         previous.ftContractAccountId, previous.receiverAccountId,
                         previous.ftTransferAmount, scope.gas, previous.memo))
  }

  /** A gas-stage context is determined by the context it extends and its gas:
      the stage adds one field and loses nothing. */
  lemma GasStageDeterministic(c: PrepaidGasContext, d: PrepaidGasContext)
    requires ForgetGas(c) == ForgetGas(d) && c.gas == d.gas
    ensures c == d
  {
  }

  // ---------------------------------------------------------------------------
  // Interactive input of gas and deposit
  // ---------------------------------------------------------------------------

  /** The highest gas the prompt accepts, in TeraGas. */
  const GAS_CEILING_TGAS: nat := 300

  const GAS_LIMIT_MESSAGE: string := "You need to enter a value of no more than 300 TeraGas"

  /** The text the gas prompt starts with, "100 TeraGas". */
  const STARTING_GAS: NearGas := FromTgas(100)

  datatype Validation = Valid | Invalid(message: string)

  /** The validator of the gas prompt. */
  function ValidateGas(gas: NearGas): (v: Validation)
    ensures v.Valid? <==> gas.units <= 300 * 1_000_000_000_000
    ensures v.Invalid? ==> v.message == GAS_LIMIT_MESSAGE
  {
    if gas.units > FromTgas(GAS_CEILING_TGAS).units then Invalid(GAS_LIMIT_MESSAGE) else Valid
  }

  /** The starting text of the gas prompt is itself acceptable. */
  lemma StartingGasAccepted()
    ensures ValidateGas(STARTING_GAS) == Valid
  {
  }

  /** What a prompt gives back: an answer, or the user's cancellation. */
  datatype Prompt<T> = Answered(value: T) | Cancelled

  /** `PrepaidGas::input_gas`. The prompt keeps asking until the validator says
      `Valid`, so an answer it returns has passed the validator. */
  function InputGas(context: AmountFtContext, prompt: Prompt<NearGas>): (r: Result<Option<NearGas>, Error>)
    requires prompt.Answered? ==> ValidateGas(prompt.value).Valid?
    ensures r.Err? <==> prompt.Cancelled?
    ensures r.Ok? ==> r.value == Some(prompt.value)
    ensures r.Ok? ==> r.value.value.units <= GAS_CEILING_TGAS * TERA_GAS
  {
    match prompt
    case Cancelled => Err(PromptFailed)
    case Answered(gas) => Ok(Some(gas))
  }

  /** `Deposit::input_deposit`: a prompt without validator. */
  function InputDeposit(context: PrepaidGasContext, prompt: Prompt<NearToken>): (r: Result<Option<NearToken>, Error>)
    ensures r.Err? <==> prompt.Cancelled?
    ensures r.Ok? ==> r.value == Some(prompt.value)
  {
    match prompt
    case Cancelled => Err(PromptFailed)
    case Answered(deposit) => Ok(Some(deposit))
  }

  // ---------------------------------------------------------------------------
  // Amount resolution
  // ---------------------------------------------------------------------------

  /** The signer's balance as text: the `get_ft_balance` query (argument
      `{"account_id": signer}`) and the decoding of its answer as a JSON string. */
  function BalanceText(net: NetworkConfig, signer: AccountId, ftContract: AccountId): Result<string, Error> {
    match net.ftBalance(ftContract, AccountIdArgs(signer))
    case Err(e) => Err(BalanceQueryFailed(ftContract, net.networkName, e))
    case Ok(MalformedResult) => Err(BalanceNotAString(ftContract))
    case Ok(JsonResult(v)) => if v.JString? then Ok(v.s) else Err(BalanceNotAString(ftContract))
  }

  /** The token's metadata: the `params_ft_metadata` query. */
  function MetadataOf(net: NetworkConfig, ftContract: AccountId): Result<FtMetadata, Error> {
    match net.ftMetadata(ftContract)
    case Err(e) => Err(MetadataQueryFailed(ftContract, net.networkName, e))
    case Ok(m) => Ok(m)
  }

  /** `get_amount_ft`. An exact amount is returned as it is. The maximum is the
      signer's raw balance with the token's decimals and symbol; the balance query
      comes first, then the metadata query, then the parse of the balance as a
      u128, and the first of them that fails is the error. */
  function GetAmountFt(amount: FungibleTokenTransferAmount, net: NetworkConfig, signer: AccountId, ftContract: AccountId)
    : (r: Result<FungibleToken, Error>)
    ensures amount.ExactAmount? ==> r == Ok(amount.ft)
    ensures amount.MaxAmount? ==>
      (r.Ok? <==> BalanceText(net, signer, ftContract).Ok? && MetadataOf(net, ftContract).Ok?
                  && ParseU128(BalanceText(net, signer, ftContract).value).Some?)
    ensures amount.MaxAmount? && r.Ok? ==>
      r.value.amount == ParseU128(BalanceText(net, signer, ftContract).value).value
      && r.value.decimals == MetadataOf(net, ftContract).value.decimals
      && r.value.symbol == MetadataOf(net, ftContract).value.symbol
    ensures amount.MaxAmount? && BalanceText(net, signer, ftContract).Err? ==>
      r == Err(BalanceText(net, signer, ftContract).error)
    ensures amount.MaxAmount? && BalanceText(net, signer, ftContract).Ok? && MetadataOf(net, ftContract).Err? ==>
      r == Err(MetadataOf(net, ftContract).error)
  {
    match amount
    case ExactAmount(ft) => Ok(ft)
    case MaxAmount =>
      var text :- BalanceText(net, signer, ftContract);
      var metadata :- MetadataOf(net, ftContract);
      match ParseU128(text)
      case None => Err(BalanceNotU128(text))
      case Some(raw) => Ok(FromParamsFt(raw, metadata.decimals, metadata.symbol))
  }

  /** An exact amount is resolved without the network: any two networks agree. */
  lemma ExactAmountIgnoresNetwork(ft: FungibleToken, net1: NetworkConfig, net2: NetworkConfig, signer: AccountId, ftContract: AccountId)
    ensures GetAmountFt(ExactAmount(ft), net1, signer, ftContract) == GetAmountFt(ExactAmount(ft), net2, signer, ftContract)
  {
  }

  /** The maximum depends on nothing but the answers to its two queries (and on
      the network's name, which error reports carry). */
  lemma MaxAmountReadsOnlyItsQueries(net1: NetworkConfig, net2: NetworkConfig, signer: AccountId, ftContract: AccountId)
    requires net1.networkName == net2.networkName
    requires net1.ftBalance(ftContract, AccountIdArgs(signer)) == net2.ftBalance(ftContract, AccountIdArgs(signer))
    requires net1.ftMetadata(ftContract) == net2.ftMetadata(ftContract)
    ensures GetAmountFt(MaxAmount, net1, signer, ftContract) == GetAmountFt(MaxAmount, net2, signer, ftContract)
  {
  }

  /** When the contract reports a balance `n` in its canonical decimal form, the
      maximum is exactly `n`, with the metadata's decimals and symbol. */
  lemma MaxAmountOfReportedBalance(net: NetworkConfig, signer: AccountId, ftContract: AccountId, n: Uint128, metadata: FtMetadata)
    requires net.ftBalance(ftContract, AccountIdArgs(signer)) == Ok(JsonResult(JString(DecimalString(n))))
    requires net.ftMetadata(ftContract) == Ok(metadata)
    ensures GetAmountFt(MaxAmount, net, signer, ftContract) == Ok(FungibleToken(n, metadata.decimals, metadata.symbol))
  {
    ParseDisplayRoundTrip(n);
  }

  // ---------------------------------------------------------------------------
  // The action-list builder
  // ---------------------------------------------------------------------------

  const FT_TRANSFER: string := "ft_transfer"
  const STORAGE_DEPOSIT: string := "storage_deposit"
  const STORAGE_BALANCE_OF: string := "storage_balance_of"

  /** The fixed deposit attached to `storage_deposit`, in milliNEAR. */
  const STORAGE_DEPOSIT_MILLINEAR: nat := 100

  /** The memo goes into the payload only when present and not blank. */
  predicate MemoIncluded(memo: Option<string>) {
    memo.Some? && !IsBlank(memo.value)
  }

  /** The `ft_transfer` argument object: `receiver_id`, `amount` in decimal
      and, when the memo is not blank, `memo` exactly as the user typed it. */
  function FtTransferArgs(receiver: AccountId, amountFt: FungibleToken, memo: Option<string>): (args: JsonObject)
    ensures args.Keys == {"receiver_id", "amount"} + (if MemoIncluded(memo) then {"memo"} else {})
    ensures args["receiver_id"] == receiver
    ensures args["amount"] == DecimalString(amountFt.amount)
    ensures "memo" in args <==> MemoIncluded(memo)
    ensures "memo" in args ==> args["memo"] == memo.value
  {
    var args := map["receiver_id" := receiver, "amount" := DecimalString(amountFt.amount)];
    if MemoIncluded(memo) then args["memo" := memo.value] else args
  }

  /** The `ft_transfer` call: the user's gas and the user's deposit. */
  function FtTransferAction(receiver: AccountId, amountFt: FungibleToken, memo: Option<string>, deposit: NearToken, gas: NearGas)
    : (a: Action)
    ensures a.call.methodName == "ft_transfer"
    ensures a.call.args == FtTransferArgs(receiver, amountFt, memo)
    ensures a.call.gas == gas.units && a.call.deposit == deposit.yocto
  {
    FunctionCall(FunctionCallAction(FT_TRANSFER, FtTransferArgs(receiver, amountFt, memo), gas.units, deposit.yocto))
  }

  /** The `storage_deposit` call that registers the receiver: argument
      `{"account_id": receiver}`, the transfer's gas, and 0.1 NEAR whatever
      deposit the user chose. */
  function StorageDepositAction(receiver: AccountId, gas: NearGas): (a: Action)
    ensures a.call.methodName == "storage_deposit"
    ensures a.call.args.Keys == {"account_id"} && a.call.args["account_id"] == receiver
    ensures a.call.gas == gas.units
    ensures a.call.deposit == 100_000_000_000_000_000_000_000
  {
    FunctionCall(FunctionCallAction(STORAGE_DEPOSIT, AccountIdArgs(receiver), gas.units,
                                    FromMillinear(STORAGE_DEPOSIT_MILLINEAR).yocto))
  }

  /** The answer to `storage_balance_of(receiver)` on the token contract:
      `Ok(true)` when it is JSON null, i.e. the receiver is not registered. */
  function ReceiverUnregistered(net: NetworkConfig, ftContract: AccountId, receiver: AccountId): Result<bool, Error> {
    match net.viewFunction(ftContract, STORAGE_BALANCE_OF, AccountIdArgs(receiver))
    case Err(e) => Err(StorageBalanceQueryFailed(ftContract, net.networkName, e))
    case Ok(MalformedResult) => Err(StorageBalanceNotJson(ftContract))
    case Ok(JsonResult(v)) => Ok(v.JNull?)
  }

  /** The transaction `get_prepopulated_transaction` builds, stated declaratively:
      signed by the signer and addressed to the token contract, it ends with the
      `ft_transfer` call and starts with a `storage_deposit` call exactly when
      the registration query answered null; a failed or unreadable query gives
      its error and no transaction. */
  function PrepopulatedTransactionOf(
    net: NetworkConfig, ftContract: AccountId, receiver: AccountId, signer: AccountId,
    amountFt: FungibleToken, memo: Option<string>, deposit: NearToken, gas: NearGas)
    : (r: Result<PrepopulatedTransaction, Error>)
    ensures r.Ok? <==> ReceiverUnregistered(net, ftContract, receiver).Ok?
    ensures r.Err? ==> r.error == ReceiverUnregistered(net, ftContract, receiver).error
    ensures r.Ok? ==> r.value.signerId == signer && r.value.receiverId == ftContract
    ensures r.Ok? ==> 1 <= |r.value.actions| <= 2
    ensures r.Ok? ==> (|r.value.actions| == 2 <==> ReceiverUnregistered(net, ftContract, receiver).value)
    ensures r.Ok? ==> r.value.actions[|r.value.actions| - 1] == FtTransferAction(receiver, amountFt, memo, deposit, gas)
    ensures r.Ok? && |r.value.actions| == 2 ==> r.value.actions[0] == StorageDepositAction(receiver, gas)
  {
    var unregistered :- ReceiverUnregistered(net, ftContract, receiver);
    var transfer := FtTransferAction(receiver, amountFt, memo, deposit, gas);
    var actions := if unregistered then [StorageDepositAction(receiver, gas), transfer] else [transfer];
    Ok(PrepopulatedTransaction(signer, ftContract, actions))
  }

  /** `get_prepopulated_transaction`: builds the `ft_transfer` arguments one key
      at a time, issues the registration query, and returns early with two
      actions when its answer is null. */
  method GetPrepopulatedTransaction(
    net: NetworkConfig, ftContract: AccountId, receiver: AccountId, signer: AccountId,
    amountFt: FungibleToken, memo: Option<string>, deposit: NearToken, gas: NearGas)
    returns (r: Result<PrepopulatedTransaction, Error>)
    ensures r == PrepopulatedTransactionOf(net, ftContract, receiver, signer, amountFt, memo, deposit, gas)
  {
    var transferArgs: JsonObject := map[];
    transferArgs := transferArgs["receiver_id" := receiver];
    transferArgs := transferArgs["amount" := DecimalString(amountFt.amount)];
    if memo.Some? {
      var m := memo.value;
      if Trim(m) != [] {
        transferArgs := transferArgs["memo" := m];
      }
    }
    assert transferArgs == FtTransferArgs(receiver, amountFt, memo);
    var actionFtTransfer := FunctionCall(FunctionCallAction(FT_TRANSFER, transferArgs, gas.units, deposit.yocto));

    var args := map["account_id" := receiver];
    var callResult := net.viewFunction(ftContract, STORAGE_BALANCE_OF, args);
    if callResult.Err? {
      return Err(StorageBalanceQueryFailed(ftContract, net.networkName, callResult.error));
    }
    if callResult.value.MalformedResult? {
      return Err(StorageBalanceNotJson(ftContract));
    }
    if callResult.value.value.JNull? {
      var actionStorageDeposit := FunctionCall(FunctionCallAction(STORAGE_DEPOSIT, args, gas.units,
                                                                  FromMillinear(STORAGE_DEPOSIT_MILLINEAR).yocto));
      return Ok(PrepopulatedTransaction(signer, ftContract, [actionStorageDeposit, actionFtTransfer]));
    }
    return Ok(PrepopulatedTransaction(signer, ftContract, [actionFtTransfer]));
  }

  /** The registration action is added if and only if the receiver is reported
      unregistered, and the transfer is always there: registering is never
      assumed and the check is never skipped. */
  lemma RegistrationIffNull(
    net: NetworkConfig, ftContract: AccountId, receiver: AccountId, signer: AccountId,
    amountFt: FungibleToken, memo: Option<string>, deposit: NearToken, gas: NearGas, answer: Json)
    requires net.viewFunction(ftContract, "storage_balance_of", AccountIdArgs(receiver)) == Ok(JsonResult(answer))
    ensures var r := PrepopulatedTransactionOf(net, ftContract, receiver, signer, amountFt, memo, deposit, gas);
      r.Ok?
      && (answer == JNull ==> r.value.actions == [StorageDepositAction(receiver, gas), FtTransferAction(receiver, amountFt, memo, deposit, gas)])
      && (answer != JNull ==> r.value.actions == [FtTransferAction(receiver, amountFt, memo, deposit, gas)])
  {
  }

  /** Only the memo decides whether `memo` is sent: "  " is left out, "thanks" goes in verbatim. */
  lemma MemoExamples(receiver: AccountId, amountFt: FungibleToken)
    ensures "memo" !in FtTransferArgs(receiver, amountFt, Some("  "))
    ensures "memo" !in FtTransferArgs(receiver, amountFt, None)
    ensures MemoIncluded(Some("thanks")) && MemoIncluded(Some(" thanks "))
    ensures FtTransferArgs(receiver, amountFt, Some("thanks"))["memo"] == "thanks"
    ensures FtTransferArgs(receiver, amountFt, Some(" thanks "))["memo"] == " thanks "
  {
    assert "thanks"[0] == 't' && !IsWhitespace('t');
    assert " thanks "[1] == 't';
  }

  // ---------------------------------------------------------------------------
  // The Action Context and its callbacks
  // ---------------------------------------------------------------------------

  /** What the "prepopulate after getting network" closure captures. */
  datatype PrepopulateCallback = PrepopulateCallback(
    signerAccountId: AccountId,
    ftContractAccountId: AccountId,
    receiverAccountId: AccountId,
    deposit: NearToken,
    ftTransferAmount: FungibleTokenTransferAmount,
    memo: Option<string>,
    gas: NearGas)

  /** The before-signing closure, which accepts every transaction. */
  datatype BeforeSigningCallback = AcceptBeforeSigning

  /** The before-sending closure, which has nothing to show. */
  datatype BeforeSendingCallback = NothingBeforeSending

  /** What the after-sending closure captures. */
  datatype AfterSendingCallback = ReportTransfer(
    signerAccountId: AccountId,
    ftContractAccountId: AccountId,
    receiverAccountId: AccountId,
    ftTransferAmount: FungibleTokenTransferAmount)

  /** The terminal record of the chain: the accounts involved, and the four
      callbacks the transaction driver runs in order. */
  datatype ActionContext = ActionContext(
    globalContext: GlobalContext,
    interactingWithAccountIds: seq<AccountId>,
    getPrepopulatedTransaction: PrepopulateCallback,
    onBeforeSigning: BeforeSigningCallback,
    onBeforeSending: BeforeSendingCallback,
    onAfterSending: AfterSendingCallback)

  datatype DepositContext = DepositContext(actionContext: ActionContext)

  /** `From<DepositContext> for ActionContext`. */
  function IntoActionContext(d: DepositContext): (ctx: ActionContext)
    ensures DepositContext(ctx) == d
  {
    d.actionContext
  }

  /** The prepopulate callback run on the chosen network: the amount is
      resolved first (on that network); if that fails, its error is the
      callback's and no registration query is made; otherwise the builder runs
      on the resolved amount and the captured values. */
  function Prepopulate(cb: PrepopulateCallback, net: NetworkConfig): (r: Result<PrepopulatedTransaction, Error>)
    ensures var a := GetAmountFt(cb.ftTransferAmount, net, cb.signerAccountId, cb.ftContractAccountId);
      (a.Err? ==> r == Err(a.error))
      && (a.Ok? ==> r == PrepopulatedTransactionOf(net, cb.ftContractAccountId, cb.receiverAccountId, cb.signerAccountId,
                                                  a.value, cb.memo, cb.deposit, cb.gas))
  {
    var amountFt :- GetAmountFt(cb.ftTransferAmount, net, cb.signerAccountId, cb.ftContractAccountId);
    PrepopulatedTransactionOf(net, cb.ftContractAccountId, cb.receiverAccountId, cb.signerAccountId,
                              amountFt, cb.memo, cb.deposit, cb.gas)
  }

  /** A transaction the prepopulate callback produces is signed by the signer,
      addressed to the token contract, and transfers the resolved amount to the
      receiver with the captured gas and deposit in its last action. */
  lemma PrepopulateShape(cb: PrepopulateCallback, net: NetworkConfig)
    requires Prepopulate(cb, net).Ok?
    ensures var tx := Prepopulate(cb, net).value;
      var a := GetAmountFt(cb.ftTransferAmount, net, cb.signerAccountId, cb.ftContractAccountId);
      a.Ok?
      && tx.signerId == cb.signerAccountId && tx.receiverId == cb.ftContractAccountId
      && 1 <= |tx.actions| <= 2
      && var last := tx.actions[|tx.actions| - 1].call;
      last.methodName == "ft_transfer" && last.gas == cb.gas.units && last.deposit == cb.deposit.yocto
      && last.args["receiver_id"] == cb.receiverAccountId
      && last.args["amount"] == DecimalString(a.value.amount)
  {
  }

  /** The before-signing callback: always `Ok(())`. */
  function OnBeforeSigning(cb: BeforeSigningCallback, tx: Transaction, net: NetworkConfig): (r: Result<(), Error>)
    ensures r == Ok(())
  {
    Ok(())
  }

  /** The before-sending callback: always the empty text. */
  function OnBeforeSending(cb: BeforeSendingCallback, signed: SignedTransaction, net: NetworkConfig): (r: Result<string, Error>)
    ensures r == Ok("")
  {
    Ok("")
  }

  /** The success line the after-sending callback prints, as a record:
      who sent which amount of which token to whom. */
  datatype TransferReport = TransferReport(signer: AccountId, amount: FungibleToken, ftContract: AccountId, receiver: AccountId)

  /** The after-sending callback. It resolves the amount again, whatever the
      outcome, and fails if that fails; otherwise it reports the transfer only
      when the status is `SuccessValue`, and reports nothing else. */
  function OnAfterSending(cb: AfterSendingCallback, outcome: FinalExecutionOutcome, net: NetworkConfig)
    : (r: Result<Option<TransferReport>, Error>)
    ensures var a := GetAmountFt(cb.ftTransferAmount, net, cb.signerAccountId, cb.ftContractAccountId);
      (r.Err? <==> a.Err?)
      && (r.Err? ==> r.error == a.error)
      && (r.Ok? ==> (r.value.Some? <==> outcome.status.SuccessValue?))
      && (r.Ok? && r.value.Some? ==>
            r.value.value == TransferReport(cb.signerAccountId, a.value, cb.ftContractAccountId, cb.receiverAccountId))
  {
    var amountFt :- GetAmountFt(cb.ftTransferAmount, net, cb.signerAccountId, cb.ftContractAccountId);
    if outcome.status.SuccessValue? then
      Ok(Some(TransferReport(cb.signerAccountId, amountFt, cb.ftContractAccountId, cb.receiverAccountId)))
    else
      Ok(None)
  }

  /** `DepositContext::from_previous_context`: the Action Context lists the
      token contract, the signer and the receiver, in that order; the two
      closures capture the previous context's values and the deposit; the
      other two hooks are the accepting and the silent ones. It never fails. */
  function DepositContextFromPrevious(previous: PrepaidGasContext, scope: DepositScope): (r: Result<DepositContext, Error>)
    ensures r.Ok?
    ensures var ctx := IntoActionContext(r.value);
      ctx.globalContext == previous.globalContext
      && ctx.interactingWithAccountIds == [previous.ftContractAccountId, previous.signerAccountId, previous.receiverAccountId]
      && ctx.getPrepopulatedTransaction.signerAccountId == previous.signerAccountId
      && ctx.getPrepopulatedTransaction.ftContractAccountId == previous.ftContractAccountId
      && ctx.getPrepopulatedTransaction.receiverAccountId == previous.receiverAccountId
      && ctx.getPrepopulatedTransaction.ftTransferAmount == previous.ftTransferAmount
      && ctx.getPrepopulatedTransaction.memo == previous.memo
      && ctx.getPrepopulatedTransaction.gas == previous.gas
      && ctx.getPrepopulatedTransaction.deposit == scope.deposit
      && ctx.onAfterSending.signerAccountId == previous.signerAccountId
      && ctx.onAfterSending.ftContractAccountId == previous.ftContractAccountId
      && ctx.onAfterSending.receiverAccountId == previous.receiverAccountId
      && ctx.onAfterSending.ftTransferAmount == previous.ftTransferAmount
  {
    var prepopulate := PrepopulateCallback(
      previous.signerAccountId, previous.ftContractAccountId, previous.receiverAccountId,
      scope.deposit, previous.ftTransferAmount, previous.memo, previous.gas);
    var afterSending := ReportTransfer(
      previous.signerAccountId, previous.ftContractAccountId, previous.receiverAccountId,
      previous.ftTransferAmount);
    Ok(DepositContext(ActionContext(
      previous.globalContext,
      [previous.ftContractAccountId, previous.signerAccountId, previous.receiverAccountId],
      prepopulate, AcceptBeforeSigning, NothingBeforeSending, afterSending)))
  }

  /** The two stages composed: from the amount stage's context, a gas and a
      deposit, the Action Context's prepopulate callback builds, on any network,
      the transaction for the original signer, token contract, receiver, amount
      and memo with the chosen gas and deposit, and its after-sending callback
      reports the transfer between the original accounts. */
  lemma TransferChain(
    previous: AmountFtContext, gasScope: PrepaidGasScope, depositScope: DepositScope,
    net: NetworkConfig, outcome: FinalExecutionOutcome)
    ensures var gasContext := PrepaidGasFromPrevious(previous, gasScope).value;
      var ctx := IntoActionContext(DepositContextFromPrevious(gasContext, depositScope).value);
      var a := GetAmountFt(previous.ftTransferAmount, net, previous.signerAccountId, previous.ftContractAccountId);
      ctx.interactingWithAccountIds == [previous.ftContractAccountId, previous.signerAccountId, previous.receiverAccountId]
      && (a.Err? ==> Prepopulate(ctx.getPrepopulatedTransaction, net) == Err(a.error))
      && (a.Ok? ==> Prepopulate(ctx.getPrepopulatedTransaction, net)
                    == PrepopulatedTransactionOf(net, previous.ftContractAccountId, previous.receiverAccountId,
                                                 previous.signerAccountId, a.value, previous.memo,
                                                 depositScope.deposit, gasScope.gas))
      && (a.Ok? && outcome.status.SuccessValue? ==>
            OnAfterSending(ctx.onAfterSending, outcome, net)
            == Ok(Some(TransferReport(previous.signerAccountId, a.value, previous.ftContractAccountId, previous.receiverAccountId))))
  {
  }

  // ---------------------------------------------------------------------------
  // Worked scenario: alice.near sends 10 USDC (6 decimals) to bob.near
  // ---------------------------------------------------------------------------

  /** A network whose only relevant answer is the registration query's. */
  function RegistrationNetwork(storageAnswer: Json): NetworkConfig {
    NetworkConfig("mainnet",
                  (contract, methodName, args) => Ok(JsonResult(storageAnswer)),
                  (contract, args) => Err(RpcError("not queried")),
                  contract => Err(RpcError("not queried")))
  }

  /** The transfer of 10 USDC from alice.near to bob.near, with no memo. */
  function TenUsdcCallback(gas: NearGas, deposit: NearToken): PrepopulateCallback {
    PrepopulateCallback("alice.near", "usdc.near", "bob.near", deposit,
                        ExactAmount(FungibleToken(10_000_000, 6, "USDC")), None, gas)
  }

  /** The decimal form of the raw amount of 10 USDC. */
  lemma TenMillionDigits()
    ensures DecimalString(10_000_000) == "10000000"
  {
  }

  /** A registered receiver: exactly one `ft_transfer` action, with amount
      "10000000" and no memo. */
  lemma TenUsdcToRegisteredReceiver(gas: NearGas, deposit: NearToken)
    ensures var r := Prepopulate(TenUsdcCallback(gas, deposit), RegistrationNetwork(JObject([])));
      r.Ok? && |r.value.actions| == 1
      && r.value.actions[0].call.methodName == "ft_transfer"
      && r.value.actions[0].call.args["amount"] == "10000000"
      && "memo" !in r.value.actions[0].call.args
  {
    var ten := FungibleToken(10_000_000, 6, "USDC");
    TenMillionDigits();
    RegistrationIffNull(RegistrationNetwork(JObject([])), "usdc.near", "bob.near", "alice.near",
                        ten, None, deposit, gas, JObject([]));
  }

  /** An unregistered receiver: `storage_deposit` with 0.1 NEAR, then the same transfer. */
  lemma TenUsdcToUnregisteredReceiver(gas: NearGas, deposit: NearToken)
    ensures var r := Prepopulate(TenUsdcCallback(gas, deposit), RegistrationNetwork(JNull));
      r.Ok? && |r.value.actions| == 2
      && r.value.actions[0].call.methodName == "storage_deposit"
      && r.value.actions[0].call.deposit == 100_000_000_000_000_000_000_000
      && r.value.actions[1] == Prepopulate(TenUsdcCallback(gas, deposit), RegistrationNetwork(JObject([]))).value.actions[0]
  {
    var ten := FungibleToken(10_000_000, 6, "USDC");
    RegistrationIffNull(RegistrationNetwork(JNull), "usdc.near", "bob.near", "alice.near", ten, None, deposit, gas, JNull);
    RegistrationIffNull(RegistrationNetwork(JObject([])), "usdc.near", "bob.near", "alice.near",
                        ten, None, deposit, gas, JObject([]));
  }
}
