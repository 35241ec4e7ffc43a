/** The NEAR values the transfer pipeline moves around: account ids, gas, token
    quantities, function-call actions, transactions, the answers of the JSON-RPC
    collaborator, and the network configuration through which it is reached. */
module Primitives {
  import opened Wrappers
  import opened RustText

  const U64_LIMIT: nat := 0x1_0000_0000_0000_0000

  type Uint8 = n: nat | n < 256
  type Uint64 = n: nat | n < U64_LIMIT

  /** Account ids are carried as text; their validity rules are not modelled. */
  type AccountId = string

  // ---------------------------------------------------------------------------
  // Quantities
  // ---------------------------------------------------------------------------

  /** One TeraGas in gas units. */
  const TERA_GAS: nat := 1_000_000_000_000

  /** `NearGas`: a u64 count of gas units; `as_gas()` is `units`. */
  datatype NearGas = NearGas(units: Uint64)

  /** `NearGas::from_tgas`. */
  function FromTgas(tgas: nat): NearGas
    requires tgas * TERA_GAS < U64_LIMIT
  {
    NearGas(tgas * TERA_GAS)
  }

  /** One milliNEAR in yoctoNEAR. */
  const MILLI_NEAR: nat := 1_000_000_000_000_000_000_000

  /** `NearToken`: a u128 count of yoctoNEAR; `as_yoctonear()` is `yocto`. */
  datatype NearToken = NearToken(yocto: Uint128)

  /** `NearToken::from_millinear`. */
  function FromMillinear(millis: nat): NearToken
    requires millis * MILLI_NEAR < U128_LIMIT
  {
    NearToken(millis * MILLI_NEAR)
  }

  /** `FungibleToken`: a raw u128 amount of the token's smallest unit, with the
      decimals and symbol that give its display form; `amount()` is `amount`. */
  datatype FungibleToken = FungibleToken(amount: Uint128, decimals: Uint8, symbol: string)

  /** `FungibleToken::from_params_ft`. */
  function FromParamsFt(amount: Uint128, decimals: Uint8, symbol: string): FungibleToken {
    FungibleToken(amount, decimals, symbol)
  }

  /** What the user chose to send: a quantity, or "my whole balance". */
  datatype FungibleTokenTransferAmount = ExactAmount(ft: FungibleToken) | MaxAmount

  /** `FtMetadata`, the part of a NEP-148 `ft_metadata` answer the transfer uses. */
  datatype FtMetadata = FtMetadata(decimals: Uint8, symbol: string)

  // ---------------------------------------------------------------------------
  // Actions and transactions
  // ---------------------------------------------------------------------------

  /** A JSON object whose every value is a JSON string, as all the argument
      objects built here are. Keys are compared as a map, so the order in which
      they are written out is not part of the model. */
  type JsonObject = map<string, string>

  /** `{"account_id": <id>}`, the argument of `storage_balance_of`,
      `storage_deposit` and `ft_balance_of`. */
  function AccountIdArgs(account: AccountId): JsonObject
  {
    map["account_id" := account]
  }

  datatype FunctionCallAction = FunctionCallAction(methodName: string, args: JsonObject, gas: Uint64, deposit: Uint128)

  /** `near_primitives::transaction::Action`; only the function-call kind occurs here. */
  datatype Action = FunctionCall(call: FunctionCallAction)

  /** The unsigned transaction skeleton the first callback produces. */
  datatype PrepopulatedTransaction = PrepopulatedTransaction(signerId: AccountId, receiverId: AccountId, actions: seq<Action>)

  datatype KeyType = ED25519 | SECP256K1

  datatype PublicKey = PublicKey(keyType: KeyType, data: seq<bv8>)

  datatype CryptoHash = CryptoHash(bytes: seq<bv8>)

  /** `near_primitives::transaction::Transaction`. */
  datatype Transaction = Transaction(
    signerId: AccountId,
    publicKey: PublicKey,
    nonce: Uint64,
    receiverId: AccountId,
    blockHash: CryptoHash,
    actions: seq<Action>)

  datatype SignedTransaction = SignedTransaction(transaction: Transaction, signature: seq<bv8>)

  /** `FinalExecutionStatus` of a broadcast transaction. */
  datatype FinalExecutionStatus = NotStarted | Started | Failure(reason: string) | SuccessValue(value: seq<bv8>)

  datatype FinalExecutionOutcome = FinalExecutionOutcome(status: FinalExecutionStatus)

  // ---------------------------------------------------------------------------
  // The JSON-RPC collaborator
  // ---------------------------------------------------------------------------

  datatype Json =
    | JNull
    | JBool(b: bool)
    | JNumber(literal: string)
    | JString(s: string)
    | JArray(items: seq<Json>)
    | JObject(members: seq<(string, Json)>)

  /** The payload of a view call's answer: JSON text, or bytes that do not parse as JSON. */
  datatype CallResult = JsonResult(value: Json) | MalformedResult

  /** Why a remote call failed (transport, unknown account, contract panic, ...). */
  datatype RpcError = RpcError(message: string)

  /** A network configuration, reduced to its name and to the answers its
      JSON-RPC endpoint gives, at finality "final", to the three read-only
      queries the transfer issues:
      - `viewFunction(contract, method, args)`: `blocking_call_view_function`;
      - `ftBalance(contract, args)`: `get_ft_balance`;
      - `ftMetadata(contract)`: `params_ft_metadata`. */
  datatype NetworkConfig = NetworkConfig(
    networkName: string,
    viewFunction: (AccountId, string, JsonObject) -> Result<CallResult, RpcError>,
    ftBalance: (AccountId, JsonObject) -> Result<CallResult, RpcError>,
    ftMetadata: AccountId -> Result<FtMetadata, RpcError>)
}
