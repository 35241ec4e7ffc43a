/** The top-level dispatcher: the command families, their menu, the conversion
    from the parsed command line, and the hand-off to the chosen family. */
module Commands {
  import opened Wrappers
  import opened Primitives

  /** The flags given to a family on the command line. What they mean belongs to
      the family and is not part of this model; `Default::default()` is no flags. */
  datatype CliArgs = CliArgs(flags: seq<string>)

  const DEFAULT_CLI_ARGS: CliArgs := CliArgs([])

  /** A family's own arguments in interactive form, obtained from its CLI form by
      that family's `into`, which is not part of this model: it is kept as the
      CLI value it was made from. */
  datatype SubCommand = SubCommand(cli: CliArgs)

  /** The parsed command line. */
  datatype CliTopLevelCommand =
    | CliAdd(addAction: CliArgs)
    | CliConstructTransaction(operationMode: CliArgs)
    | CliExecute(optionMethod: CliArgs)
    | CliGenerateShellCompletions(shell: CliArgs)
    | CliTransfer(currency: CliArgs)
    | CliUtils(utils: CliArgs)

  /** The five families the dispatcher can run. */
  datatype TopLevelCommand =
    | Add(addAction: SubCommand)
    | ConstructTransaction(mode: SubCommand)
    | Execute(optionMethod: SubCommand)
    | Transfer(currency: SubCommand)
    | Utils(utilType: SubCommand)

  /** `TopLevelCommandDiscriminants`: the families without their arguments. */
  datatype Family = AddFamily | ConstructTransactionFamily | ExecuteFamily | TransferFamily | UtilsFamily

  function FamilyOf(c: TopLevelCommand): Family {
    match c
    case Add(_) => AddFamily
    case ConstructTransaction(_) => ConstructTransactionFamily
    case Execute(_) => ExecuteFamily
    case Transfer(_) => TransferFamily
    case Utils(_) => UtilsFamily
  }

  function ArgumentsOf(c: TopLevelCommand): SubCommand {
    match c
    case Add(a) => a
    case ConstructTransaction(a) => a
    case Execute(a) => a
    case Transfer(a) => a
    case Utils(a) => a
  }

  /** The family a command line names, if it names one of the five. */
  function CliFamilyOf(c: CliTopLevelCommand): Option<Family> {
    match c
    case CliAdd(_) => Some(AddFamily)
    case CliConstructTransaction(_) => Some(ConstructTransactionFamily)
    case CliExecute(_) => Some(ExecuteFamily)
    case CliGenerateShellCompletions(_) => None
    case CliTransfer(_) => Some(TransferFamily)
    case CliUtils(_) => Some(UtilsFamily)
  }

  function CliArgumentsOf(c: CliTopLevelCommand): CliArgs {
    match c
    case CliAdd(a) => a
    case CliConstructTransaction(a) => a
    case CliExecute(a) => a
    case CliGenerateShellCompletions(a) => a
    case CliTransfer(a) => a
    case CliUtils(a) => a
  }

  /** The family's own `into`. */
  function IntoSubCommand(cli: CliArgs): SubCommand {
    SubCommand(cli)
  }

  /** `From<CliTopLevelCommand> for TopLevelCommand`: the same family, with its
      arguments converted. Shell-completion generation is handled before the
      dispatcher is reached, so it is never converted. */
  function FromCli(c: CliTopLevelCommand): (t: TopLevelCommand)
    requires !c.CliGenerateShellCompletions?
    ensures CliFamilyOf(c) == Some(FamilyOf(t))
    ensures ArgumentsOf(t) == IntoSubCommand(CliArgumentsOf(c))
  {
    match c
    case CliAdd(a) => Add(IntoSubCommand(a))
    case CliConstructTransaction(a) => ConstructTransaction(IntoSubCommand(a))
    case CliExecute(a) => Execute(IntoSubCommand(a))
    case CliTransfer(a) => Transfer(IntoSubCommand(a))
    case CliUtils(a) => Utils(IntoSubCommand(a))
  }

  /** Command lines of different families never become the same command, and
      two that do become the same command have arguments the family's `into`
      converts alike. */
  lemma FromCliInjective(c: CliTopLevelCommand, d: CliTopLevelCommand)
    requires !c.CliGenerateShellCompletions? && !d.CliGenerateShellCompletions?
    requires FromCli(c) == FromCli(d)
    ensures CliFamilyOf(c) == CliFamilyOf(d)
    ensures IntoSubCommand(CliArgumentsOf(c)) == IntoSubCommand(CliArgumentsOf(d))
  {
  }

  // ---------------------------------------------------------------------------
  // The menu
  // ---------------------------------------------------------------------------

  /** The label each family carries in the menu. */
  function Message(f: Family): string {
    match f
    case AddFamily => "Add access key"
    case ConstructTransactionFamily => "Construct a new transaction"
    case ExecuteFamily => "Execute function (contract method)"
    case TransferFamily => "Transfer tokens"
    case UtilsFamily => "Helpers"
  }

  /** `TopLevelCommandDiscriminants::iter()`: the families in declaration order. */
  function Variants(): seq<Family> {
    [AddFamily, ConstructTransactionFamily, ExecuteFamily, TransferFamily, UtilsFamily]
  }

  /** Each family appears once in the menu order. */
  lemma VariantsDistinct()
    ensures forall i, j :: 0 <= i < j < |Variants()| ==> Variants()[i] != Variants()[j]
  {
  }

  /** The menu items: each family's label, in the order of `Variants()`. */
  function MenuItems(): (items: seq<string>)
    ensures |items| == |Variants()|
    ensures forall i :: 0 <= i < |items| ==> items[i] == Message(Variants()[i])
    ensures items == ["Add access key", "Construct a new transaction", "Execute function (contract method)",
                      "Transfer tokens", "Helpers"]
  {
    seq(|Variants()|, i requires 0 <= i < |Variants()| => Message(Variants()[i]))
  }

  /** The item the menu starts on. */
  const DEFAULT_SELECTION: nat := 0

  /** The command line naming a family with its default arguments, as the
      menu builds it. */
  function DefaultCli(f: Family): (c: CliTopLevelCommand)
    ensures CliFamilyOf(c) == Some(f) && CliArgumentsOf(c) == DEFAULT_CLI_ARGS
  {
    match f
    case AddFamily => CliAdd(DEFAULT_CLI_ARGS)
    case ConstructTransactionFamily => CliConstructTransaction(DEFAULT_CLI_ARGS)
    case ExecuteFamily => CliExecute(DEFAULT_CLI_ARGS)
    case TransferFamily => CliTransfer(DEFAULT_CLI_ARGS)
    case UtilsFamily => CliUtils(DEFAULT_CLI_ARGS)
  }

  /** `TopLevelCommand::choose_command`, given the index the user picked in the
      menu (the menu only returns indices of its items): the family at that index,
      started from its default command-line value. */
  function ChooseCommand(selection: nat): (t: TopLevelCommand)
    requires selection < |MenuItems()|
    ensures FamilyOf(t) == Variants()[selection]
    ensures ArgumentsOf(t) == IntoSubCommand(DEFAULT_CLI_ARGS)
  {
    FromCli(DefaultCli(Variants()[selection]))
  }

  /** The item the user picks is labelled with the family they get, and the
      default item starts adding an access key. */
  lemma ChooseCommandMatchesLabel(selection: nat)
    requires selection < |MenuItems()|
    ensures MenuItems()[selection] == Message(FamilyOf(ChooseCommand(selection)))
    ensures FamilyOf(ChooseCommand(DEFAULT_SELECTION)) == AddFamily
  {
  }

  /** The index of a family in the menu. */
  function IndexOf(f: Family): (i: nat)
    ensures i < |Variants()| && Variants()[i] == f
  {
    match f
    case AddFamily => 0
    case ConstructTransactionFamily => 1
    case ExecuteFamily => 2
    case TransferFamily => 3
    case UtilsFamily => 4
  }

  /** Every family is reached from exactly one menu item. */
  lemma {:induction false} ChooseCommandBijective(f: Family, selection: nat)
    requires selection < |MenuItems()|
    ensures FamilyOf(ChooseCommand(IndexOf(f))) == f
    ensures FamilyOf(ChooseCommand(selection)) == f <==> selection == IndexOf(f)
  {
    VariantsDistinct();
  }

  // ---------------------------------------------------------------------------
  // Dispatch
  // ---------------------------------------------------------------------------

  /** The all-zero ED25519 public key, `PublicKey::empty(KeyType::ED25519)`. */
  function EmptyEd25519Key(): PublicKey {
    PublicKey(ED25519, seq(32, _ => 0 as bv8))
  }

  /** `CryptoHash::default()`: thirty-two zero bytes. */
  function DefaultCryptoHash(): CryptoHash {
    CryptoHash(seq(32, _ => 0 as bv8))
  }

  /** The transaction every family that builds one starts from. */
  function BlankTransaction(): (tx: Transaction)
    ensures tx.signerId == "" && tx.receiverId == "" && tx.nonce == 0 && tx.actions == []
    ensures tx.publicKey.keyType == ED25519
    ensures |tx.publicKey.data| == 32
    ensures forall i :: 0 <= i < |tx.publicKey.data| ==> tx.publicKey.data[i] == 0
    ensures tx.blockHash == DefaultCryptoHash()
  {
    Transaction("", EmptyEd25519Key(), 0, "", DefaultCryptoHash(), [])
  }

  /** Which family's `process` is called, with what. */
  datatype Dispatch =
    | ProcessWithTransaction(family: Family, arguments: SubCommand, unsignedTransaction: Transaction)
    | ProcessWithoutTransaction(family: Family, arguments: SubCommand)

  /** `TopLevelCommand::process`: hands the command's own arguments to its
      family; every family except the helpers also receives the blank transaction. */
  function Process(c: TopLevelCommand): (d: Dispatch)
    ensures d.family == FamilyOf(c) && d.arguments == ArgumentsOf(c)
    ensures d.ProcessWithoutTransaction? <==> c.Utils?
    ensures d.ProcessWithTransaction? ==> d.unsignedTransaction == BlankTransaction()
  {
    var unsignedTransaction := BlankTransaction();
    match c
    case Add(addAction) => ProcessWithTransaction(AddFamily, addAction, unsignedTransaction)
    case ConstructTransaction(mode) => ProcessWithTransaction(ConstructTransactionFamily, mode, unsignedTransaction)
    case Execute(optionMethod) => ProcessWithTransaction(ExecuteFamily, optionMethod, unsignedTransaction)
    case Transfer(currency) => ProcessWithTransaction(TransferFamily, currency, unsignedTransaction)
    case Utils(utilType) => ProcessWithoutTransaction(UtilsFamily, utilType)
  }

  /** From the command line or from the menu, the family named is the one run,
      and, unless it is the helpers, starts from the same blank transaction. */
  lemma CommandLineAndMenuAgree(selection: nat)
    requires selection < |MenuItems()|
    ensures Process(ChooseCommand(selection)) == Process(FromCli(DefaultCli(Variants()[selection])))
  {
  }
}
