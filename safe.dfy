/**
 * The Safe smart-account app. The agent deploys a Safe, creates signed
 * transactions (kept pending), executes a pending one (which moves it to the
 * executed list) and queries the account. Every action except `deploySafe`
 * and `getTransactions` needs a deployed Safe; any failure is recorded in the
 * state instead of being thrown.
 */
module SafeApp {
  import opened Common

  /** The transaction fields the agent gives; `None` is `undefined`. */
  datatype TxData = TxData(to: Option<Json>, value: Option<Json>, data: Json)

  /** A transaction created and signed by the protocol kit. */
  datatype SignedTx = SignedTx(tx: TxData, signature: string)

  datatype SafeState = SafeState(
    safeAddress: Option<string>,
    protocolKit: Option<string>,
    lastAction: Option<string>,
    lastData: Option<string>,
    balance: string,
    isDeployed: bool,
    owners: seq<string>,
    threshold: int,
    pendingTransactions: seq<SignedTx>,
    executedTransactions: seq<SignedTx>,
    deploymentStatus: Option<string>,
    error: Option<string>)

  function InitialSafeState(): SafeState {
    SafeState(None, None, None, None, "0", false, [], 0, [], [], None, None)
  }

  const SafeFunctions := ["deploySafe", "getSafeInfo", "createTransaction", "executeTransaction",
                          "getTransactions", "getBalance", "getOwners", "getThreshold"]

  /** The actions that call the Safe SDK to deploy, inspect or transact. */
  const SdkActions := {"deploySafe", "getSafeInfo", "createTransaction", "executeTransaction"}

  /** The actions that need a deployed Safe. */
  const NeedsKit := {"getSafeInfo", "createTransaction", "executeTransaction", "getBalance", "getOwners", "getThreshold"}

  function NoParams(name: string, description: string): FunctionSchema {
    FunctionSchema(name, description, ParamSchema(map[], [], map["type" := JStr("object")]))
  }

  function Described(ty: string, description: string): Json {
    JObj(map["type" := JStr(ty), "description" := JStr(description)])
  }

  /** The function schemas, one per action, in the order of `SafeFunctions`. */
  function SafeSchemas(): (fs: seq<FunctionSchema>)
    ensures |fs| == |SafeFunctions| && forall i :: 0 <= i < |fs| ==> fs[i].name == SafeFunctions[i]
  {
    [ NoParams("deploySafe", "Deploy new Safe smart account"),
      NoParams("getSafeInfo", "Get information about deployed Safe"),
      FunctionSchema("createTransaction", "Create new transaction", ParamSchema(map[
          "to" := Described("string", "Recipient address"),
          "value" := Described("string", "Amount in ETH"),
          "data" := Described("string", "Transaction data (optional)")],
        ["to", "value"], map["type" := JStr("object")])),
      FunctionSchema("executeTransaction", "Execute pending transaction", ParamSchema(map[
          "transactionId" := Described("number", "ID of transaction to execute")],
        ["transactionId"], map["type" := JStr("object")])),
      FunctionSchema("getTransactions", "Get list of transactions", ParamSchema(map[
          "status" := JObj(map["type" := JStr("string"), "enum" := JArr([JStr("pending"), JStr("executed"), JStr("all")]),
                               "description" := JStr("Filter transactions by status")])],
        ["status"], map["type" := JStr("object")])),
      NoParams("getBalance", "Get Safe balance"),
      NoParams("getOwners", "Get list of Safe owners"),
      NoParams("getThreshold", "Get Safe threshold") ]
  }

  // ---------------------------------------------------------------------------
  // Window

  /** The terminal text, one line per command. */
  function SafeTerminal(): string {
    Join([
      "Safe Smart Account Terminal",
      "Available commands:",
      "- deploySafe: Deploy new Safe smart account",
      "- getSafeInfo: Get information about deployed Safe",
      "- createTransaction: Create new transaction",
      "- executeTransaction: Execute pending transaction",
      "- getTransactions: Get list of transactions",
      "- getBalance: Get Safe balance",
      "- getOwners: Get list of Safe owners",
      "- getThreshold: Get Safe threshold"], "\n")
  }

  function SafeWindow(s: SafeState): Window {
    var action := if Present(s.lastAction) then [System("Last action: " + s.lastAction.value)] else [];
    var data := if Present(s.lastData) then [System(s.lastData.value)] else [];
    Window(action + data + [System(SafeTerminal())], SafeFunctions)
  }

  /**
   * Every action is offered. The last-action note comes first when there is
   * one, then `lastData` when it is set, and the terminal text is always last.
   */
  lemma SafeWindowShape(s: SafeState)
    ensures var w := SafeWindow(s);
      && w.availableFunctions == SafeFunctions
      && |w.messages| == 1 + (if Present(s.lastAction) then 1 else 0) + (if Present(s.lastData) then 1 else 0)
      && w.messages[|w.messages| - 1] == System(SafeTerminal())
      && (Present(s.lastAction) ==> w.messages[0] == System("Last action: " + s.lastAction.value))
      && (Present(s.lastData) ==> w.messages[|w.messages| - 2] == System(s.lastData.value))
      && (!Present(s.lastAction) && !Present(s.lastData) ==> w.messages == [System(SafeTerminal())])
  {
  }

  /** Every action the window offers has a schema of its name. */
  lemma SchemasCoverActions(f: string)
    requires f in SafeFunctions
    ensures exists i :: 0 <= i < |SafeSchemas()| && SafeSchemas()[i].name == f
  {
    var fs := SafeSchemas();
    var i :| 0 <= i < |SafeFunctions| && SafeFunctions[i] == f;
    assert fs[i].name == f;
  }

  // ---------------------------------------------------------------------------
  // Button presses

  /**
   * What the Safe SDK answers for this call: the kit `Safe.init` creates, the
   * account address, the signature of a new transaction, the hash of an
   * executed one, the balance, the owners and the threshold (each a value or
   * the message of what it throws), and `JSON.stringify` of a transaction list.
   */
  datatype SdkAnswers = SdkAnswers(
    init: Result<string, string>,
    address: Result<string, string>,
    signature: Result<string, string>,
    executedHash: Result<string, string>,
    balance: Result<string, string>,
    owners: Result<seq<string>, string>,
    threshold: Result<int, string>,
    stringify: seq<SignedTx> -> string)

  /** The `catch` block: the message is kept as the error and shown. */
  function Fail(s: SafeState, message: string): (r: SafeState)
    ensures r.error == Some(message) && r.lastData == Some("Error: " + message)
  {
    s.(error := Some(message), lastData := Some("Error: " + message))
  }

  const NotDeployed := "Safe not deployed"
  const NotFound := "Transaction not found"

  /** The transaction `createTransaction` builds; a missing or empty `data` becomes "0x". */
  function NewTx(args: map<string, Json>): TxData {
    TxData(if "to" in args then Some(args["to"]) else None,
           if "value" in args then Some(args["value"]) else None,
           if "data" in args && Truthy(args["data"]) then args["data"] else JStr("0x"))
  }

  /** `pendingTransactions[transactionId]`, when the id is an index of an existing entry. */
  function PendingIndex(pending: seq<SignedTx>, args: map<string, Json>): (r: Option<nat>)
    ensures r.Some? ==> r.value < |pending| && "transactionId" in args && args["transactionId"] == JNum(r.value)
  {
    if "transactionId" in args && args["transactionId"].JNum? && 0 <= args["transactionId"].n < |pending|
    then Some(args["transactionId"].n) else None
  }

  /** `list.filter((_, i) => i !== k)`. */
  function RemoveAt(list: seq<SignedTx>, k: nat): (r: seq<SignedTx>)
    requires k < |list|
    ensures |r| == |list| - 1
    ensures forall i :: 0 <= i < k ==> r[i] == list[i]
    ensures forall i :: k <= i < |r| ==> r[i] == list[i + 1]
  {
    list[..k] + list[k + 1..]
  }

  /** The transactions `getTransactions` lists for a status. */
  function Selected(s: SafeState, status: Option<Json>): seq<SignedTx> {
    if status == Some(JStr("pending")) then s.pendingTransactions
    else if status == Some(JStr("executed")) then s.executedTransactions
    else s.pendingTransactions + s.executedTransactions
  }

  function Arg(args: map<string, Json>, key: string): Option<Json> {
    if key in args then Some(args[key]) else None
  }

  /** The button-press handler on the state. */
  function SafePress(s0: SafeState, call: Call, sdk: SdkAnswers): SafeState {
    var s := s0.(lastAction := Some(call.name));
    if call.name in NeedsKit && s.protocolKit.None? then Fail(s, NotDeployed)
    else SafeAct(s, call, sdk)
  }

  /** The `switch` of the handler, once the last action is recorded and the Safe check passed. */
  function SafeAct(s: SafeState, call: Call, sdk: SdkAnswers): SafeState {
    match call.name
      case "deploySafe" =>
        if sdk.init.Err? then Fail(s, sdk.init.error)
        else
          var s1 := s.(protocolKit := Some(sdk.init.value));
          if sdk.address.Err? then Fail(s1, sdk.address.error)
          else s1.(safeAddress := Some(sdk.address.value), deploymentStatus := Some("deployed"),
                   lastData := Some("Safe deployed at " + sdk.address.value))
      case "getSafeInfo" =>
        if sdk.address.Err? then Fail(s, sdk.address.error)
        else s.(lastData := Some("Safe address: " + sdk.address.value))
      case "createTransaction" =>
        if sdk.signature.Err? then Fail(s, sdk.signature.error)
        else s.(pendingTransactions := s.pendingTransactions + [SignedTx(NewTx(call.args), sdk.signature.value)],
                lastData := Some("Transaction created and signed"))
      case "executeTransaction" =>
        var k := PendingIndex(s.pendingTransactions, call.args);
        if k.None? then Fail(s, NotFound)
        else if sdk.executedHash.Err? then Fail(s, sdk.executedHash.error)
        else s.(executedTransactions := s.executedTransactions + [s.pendingTransactions[k.value]],
                pendingTransactions := RemoveAt(s.pendingTransactions, k.value),
                lastData := Some("Transaction executed: " + sdk.executedHash.value))
      case "getTransactions" =>
        var status := Arg(call.args, "status");
        s.(lastData := Some("Transactions (" + ArgText(call.args, "status") + "): " + sdk.stringify(Selected(s, status))))
      case "getBalance" =>
        if sdk.balance.Err? then Fail(s, sdk.balance.error)
        else s.(balance := sdk.balance.value, lastData := Some("Balance: " + sdk.balance.value + " ETH"))
      case "getOwners" =>
        if sdk.owners.Err? then Fail(s, sdk.owners.error)
        else s.(owners := sdk.owners.value, lastData := Some("Owners: " + Join(sdk.owners.value, ", ")))
      case "getThreshold" =>
        if sdk.threshold.Err? then Fail(s, sdk.threshold.error)
        else s.(threshold := sdk.threshold.value, lastData := Some("Threshold: " + IntToString(sdk.threshold.value)))
      case _ => s
  }

  /**
   * Every call records its name as the last action, whether it fails or not;
   * a call either leaves the error as it was or records a message as the
   * error and shows it as "Error: " + message.
   */
  lemma PressRecordsActionAndErrors(s: SafeState, call: Call, sdk: SdkAnswers)
    ensures var r := SafePress(s, call, sdk);
      && r.lastAction == Some(call.name)
      && (r.error == s.error || (r.error.Some? && r.lastData == Some("Error: " + r.error.value)))
  {
  }

  /**
   * Without a deployed Safe, every action but `deploySafe` and
   * `getTransactions` fails with "Safe not deployed" and changes nothing else.
   */
  lemma NotDeployedGuard(s: SafeState, call: Call, sdk: SdkAnswers)
    requires s.protocolKit.None?
    ensures call.name in NeedsKit <==> call.name in SafeFunctions && call.name != "deploySafe" && call.name != "getTransactions"
    ensures call.name in NeedsKit ==>
      SafePress(s, call, sdk) == s.(lastAction := Some(call.name), error := Some(NotDeployed), lastData := Some("Error: " + NotDeployed))
  {
  }

  /**
   * Only `createTransaction` and `executeTransaction` change the transaction
   * lists. Creating appends exactly one transaction, with `data` "0x" unless a
   * non-empty one is given; executing a missing index fails with "Transaction
   * not found" and changes neither list.
   */
  lemma TransactionLists(s: SafeState, call: Call, sdk: SdkAnswers)
    ensures var r := SafePress(s, call, sdk);
      && (call.name != "createTransaction" && call.name != "executeTransaction" ==>
            r.pendingTransactions == s.pendingTransactions && r.executedTransactions == s.executedTransactions)
      && (call.name == "createTransaction" && s.protocolKit.Some? && sdk.signature.Ok? ==>
            && r.pendingTransactions == s.pendingTransactions + [SignedTx(NewTx(call.args), sdk.signature.value)]
            && r.executedTransactions == s.executedTransactions
            && (("data" !in call.args || !Truthy(call.args["data"])) ==> r.pendingTransactions[|s.pendingTransactions|].tx.data == JStr("0x")))
      && (call.name == "executeTransaction" && s.protocolKit.Some? && PendingIndex(s.pendingTransactions, call.args).None? ==>
            r == Fail(s.(lastAction := Some(call.name)), NotFound))
  {
  }

  /**
   * Executing pending transaction `k` appends it to the executed list and
   * removes it from the pending list, the others keeping their order; no
   * transaction is lost or duplicated.
   */
  lemma ExecuteMoves(s: SafeState, call: Call, sdk: SdkAnswers, k: nat)
    requires call.name == "executeTransaction" && s.protocolKit.Some? && sdk.executedHash.Ok?
    requires "transactionId" in call.args && call.args["transactionId"] == JNum(k) && k < |s.pendingTransactions|
    ensures var r := SafePress(s, call, sdk);
      && r.executedTransactions == s.executedTransactions + [s.pendingTransactions[k]]
      && r.pendingTransactions == s.pendingTransactions[..k] + s.pendingTransactions[k + 1..]
      && multiset(r.pendingTransactions) + multiset(r.executedTransactions)
         == multiset(s.pendingTransactions) + multiset(s.executedTransactions)
      && r.error == s.error
  {
    var p := s.pendingTransactions;
    assert p == p[..k] + [p[k]] + p[k + 1..];
  }

  /**
   * `getTransactions` works without a deployed Safe, lists the pending, the
   * executed or both lists, and changes neither.
   */
  lemma GetTransactionsSelects(s: SafeState, call: Call, sdk: SdkAnswers)
    requires call.name == "getTransactions"
    ensures var r := SafePress(s, call, sdk);
      && r.pendingTransactions == s.pendingTransactions && r.executedTransactions == s.executedTransactions
      && r.error == s.error
      && r.lastData == Some("Transactions (" + ArgText(call.args, "status") + "): "
                             + sdk.stringify(Selected(s, Arg(call.args, "status"))))
    ensures Selected(s, Some(JStr("pending"))) == s.pendingTransactions
    ensures Selected(s, Some(JStr("executed"))) == s.executedTransactions
    ensures Selected(s, Some(JStr("all"))) == s.pendingTransactions + s.executedTransactions
  {
  }

  // ---------------------------------------------------------------------------
  // The app's state object

  class SafeAppState {
    var safeAddress: Option<string>
    var protocolKit: Option<string>
    var lastAction: Option<string>
    var lastData: Option<string>
    var balance: string
    var isDeployed: bool
    var owners: seq<string>
    var threshold: int
    var pendingTransactions: seq<SignedTx>
    var executedTransactions: seq<SignedTx>
    var deploymentStatus: Option<string>
    var error: Option<string>

    function State(): SafeState
      reads this
    {
      SafeState(safeAddress, protocolKit, lastAction, lastData, balance, isDeployed, owners, threshold,
                pendingTransactions, executedTransactions, deploymentStatus, error)
    }

    constructor ()
      ensures State() == InitialSafeState()
    {
      safeAddress, protocolKit, lastAction, lastData := None, None, None, None;
      balance, isDeployed, owners, threshold := "0", false, [], 0;
      pendingTransactions, executedTransactions := [], [];
      deploymentStatus, error := None, None;
    }

    method Catch(message: string)
      modifies this
      ensures State() == Fail(old(State()), message)
    {
      error := Some(message);
      lastData := Some("Error: " + message);
    }

    method PressButton(call: Call, sdk: SdkAnswers)
      modifies this
      ensures State() == SafePress(old(State()), call, sdk)
    {
      lastAction := Some(call.name);
      if call.name in NeedsKit && protocolKit.None? {
        Catch(NotDeployed);
        return;
      }
      if call.name in SdkActions {
        RunSdkAction(call, sdk);
      } else {
        RunQuery(call, sdk);
      }
    }

    /** The cases that deploy, inspect or transact. */
    method RunSdkAction(call: Call, sdk: SdkAnswers)
      requires call.name in SdkActions
      modifies this
      ensures State() == SafeAct(old(State()), call, sdk)
    {
      match call.name
      case "deploySafe" =>
        if sdk.init.Err? { Catch(sdk.init.error); return; }
        protocolKit := Some(sdk.init.value);
        if sdk.address.Err? { Catch(sdk.address.error); return; }
        safeAddress := Some(sdk.address.value);
        deploymentStatus := Some("deployed");
        lastData := Some("Safe deployed at " + sdk.address.value);
      case "getSafeInfo" =>
        if sdk.address.Err? { Catch(sdk.address.error); return; }
        lastData := Some("Safe address: " + sdk.address.value);
      case "createTransaction" =>
        var txData := NewTx(call.args);
        if sdk.signature.Err? { Catch(sdk.signature.error); return; }
        pendingTransactions := pendingTransactions + [SignedTx(txData, sdk.signature.value)];
        lastData := Some("Transaction created and signed");
      case "executeTransaction" =>
        var k := PendingIndex(pendingTransactions, call.args);
        if k.None? { Catch(NotFound); return; }
        var pendingTx := pendingTransactions[k.value];
        if sdk.executedHash.Err? { Catch(sdk.executedHash.error); return; }
        executedTransactions := executedTransactions + [pendingTx];
        pendingTransactions := RemoveAt(pendingTransactions, k.value);
        lastData := Some("Transaction executed: " + sdk.executedHash.value);
    }

    /** The cases that read the transactions or the Safe's settings, and unknown names. */
    method RunQuery(call: Call, sdk: SdkAnswers)
      requires call.name !in SdkActions
      modifies this
      ensures State() == SafeAct(old(State()), call, sdk)
    {
      match call.name
      case "getTransactions" =>
        var status := Arg(call.args, "status");
        var transactions := Selected(State(), status);
        lastData := Some("Transactions (" + ArgText(call.args, "status") + "): " + sdk.stringify(transactions));
      case "getBalance" =>
        if sdk.balance.Err? { Catch(sdk.balance.error); return; }
        balance := sdk.balance.value;
        lastData := Some("Balance: " + sdk.balance.value + " ETH");
      case "getOwners" =>
        if sdk.owners.Err? { Catch(sdk.owners.error); return; }
        owners := sdk.owners.value;
        lastData := Some("Owners: " + Join(sdk.owners.value, ", "));
      case "getThreshold" =>
        if sdk.threshold.Err? { Catch(sdk.threshold.error); return; }
        threshold := sdk.threshold.value;
        lastData := Some("Threshold: " + IntToString(sdk.threshold.value));
      case _ =>
    }
  }
}
