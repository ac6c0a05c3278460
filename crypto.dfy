/**
 * The CoinMarketCap app. Its state is a session history of texts; the window
 * shows each entry as a system message, and the one function,
 * `getLatestListings`, writes its progress and then its answer into slot 1 of
 * the history, after the welcome text in slot 0.
 */
module CryptoApp {
  import opened Common

  const Welcome := "Welcome to CoinMarketCap terminal. What can I do for you today?"
  const ListingsFunction := "getLatestListings"
  const CryptoBasePrompt := "You have opened the Coin Market Cap terminal where you can get information about cryptocurrencies. You can use the getLatestListings function to get information about cryptocurrencies."

  function NumberProp(description: string): Json {
    JObj(map["type" := JStr("number"), "description" := JStr(description)])
  }

  function SortFields(): seq<Json> {
    [JStr("market_cap"), JStr("name"), JStr("symbol"), JStr("date_added"), JStr("price"), JStr("circulating_supply"),
     JStr("total_supply"), JStr("max_supply"), JStr("num_market_pairs"), JStr("volume_24h"),
     JStr("percent_change_1h"), JStr("percent_change_24h"), JStr("percent_change_7d")]
  }

  /** The parameters of `getLatestListings`. */
  function ListingsProperties(): map<string, Json> {
    map[
      "start" := JObj(map["type" := JStr("number"), "minimum" := JNum(1),
                          "description" := JStr("Offset the start (1-based index) of the paginated list")]),
      "limit" := JObj(map["type" := JStr("number"), "minimum" := JNum(1), "maximum" := JNum(5000),
                          "description" := JStr("Number of results to return")]),
      "price_min" := NumberProp("Minimum USD price threshold"),
      "price_max" := NumberProp("Maximum USD price threshold"),
      "market_cap_min" := NumberProp("Minimum market cap threshold"),
      "market_cap_max" := NumberProp("Maximum market cap threshold"),
      "volume_24h_min" := NumberProp("Minimum 24h USD volume threshold"),
      "volume_24h_max" := NumberProp("Maximum 24h USD volume threshold"),
      "sort" := JObj(map["type" := JStr("string"), "enum" := JArr(SortFields()),
                         "description" := JStr("Field to sort cryptocurrencies by")]),
      "sort_dir" := JObj(map["type" := JStr("string"), "enum" := JArr([JStr("asc"), JStr("desc")]),
                             "description" := JStr("Sort direction")]),
      "convert" := JObj(map["type" := JStr("string"), "description" := JStr("Comma-separated list of conversion currencies")])]
  }

  /** The one function schema; only `limit` is required, and it is one of the parameters. */
  function CryptoSchemas(): (fs: seq<FunctionSchema>)
    ensures |fs| == 1 && fs[0].name == ListingsFunction && fs[0].parameters.required == ["limit"]
    ensures fs[0].parameters.required[0] in fs[0].parameters.properties
  {
    var properties := ListingsProperties();
    assert "limit" in properties;
    [FunctionSchema(ListingsFunction, "Returns a paginated list of all active cryptocurrencies with latest market data",
      ParamSchema(properties, ["limit"], map["type" := JStr("object")]))]
  }

  /** The window: one system message per history entry, as `stringify` (`JSON.stringify`) prints it. */
  function CryptoWindow(history: seq<string>, stringify: Json -> string): (w: Window)
    ensures w.availableFunctions == [ListingsFunction]
    ensures |w.messages| == |history|
    ensures forall i :: 0 <= i < |history| ==> w.messages[i] == System(stringify(JStr(history[i])))
  {
    Window(seq(|history|, i requires 0 <= i < |history| => System(stringify(JStr(history[i])))), [ListingsFunction])
  }

  /** `history[1] = text`: on a one-entry history this appends. */
  function WriteSlot1(history: seq<string>, text: string): (r: seq<string>)
    requires |history| >= 1
    ensures |r| == if |history| < 2 then 2 else |history|
    ensures r[0] == history[0] && r[1] == text
    ensures forall i :: 2 <= i < |r| ==> r[i] == history[i]
  {
    if |history| == 1 then history + [text] else history[1 := text]
  }

  function WaitText(args: map<string, Json>, stringify: Json -> string): string {
    "You called getLatestListings function with parameters: " + stringify(JObj(args)) + ". Please wait..."
  }

  function ReturnedText(data: Json, stringify: Json -> string): string {
    "getLatestListings function returned: " + stringify(data)
  }

  /**
   * The button-press handler on the history: the new history and what was
   * thrown. `response` is the listings request's data or its error; the
   * waiting text written before the request stays when the request throws.
   */
  function CryptoPress(history: seq<string>, call: Call, response: Result<Json, string>,
                       stringify: Json -> string): (seq<string>, Option<string>)
    requires |history| >= 1
  {
    if call.name != ListingsFunction then (history, None)
    else
      var waiting := WriteSlot1(history, WaitText(call.args, stringify));
      if response.Err? then (waiting, Some(response.error))
      else (WriteSlot1(waiting, ReturnedText(response.value, stringify)), None)
  }

  /**
   * Only `getLatestListings` changes the history, and only slot 1: the welcome
   * entry and every later entry are kept, the length becomes at least 2, and
   * slot 1 holds the answer, or the waiting text when the request threw.
   */
  lemma CryptoPressEffect(history: seq<string>, call: Call, response: Result<Json, string>, stringify: Json -> string)
    requires |history| >= 1
    ensures var (h, thrown) := CryptoPress(history, call, response, stringify);
      && (call.name != ListingsFunction ==> h == history && thrown.None?)
      && (call.name == ListingsFunction ==>
            && |h| == (if |history| < 2 then 2 else |history|)
            && h[0] == history[0]
            && (forall i :: 2 <= i < |h| ==> h[i] == history[i])
            && (response.Ok? ==> h[1] == ReturnedText(response.value, stringify) && thrown.None?)
            && (response.Err? ==> h[1] == WaitText(call.args, stringify) && thrown == Some(response.error)))
  {
  }

  /**
   * From the initial history, the history always has one or two entries and
   * starts with the welcome text.
   */
  lemma HistoryStaysShort(history: seq<string>, call: Call, response: Result<Json, string>, stringify: Json -> string)
    requires 1 <= |history| <= 2 && history[0] == Welcome
    ensures var (h, _) := CryptoPress(history, call, response, stringify);
      1 <= |h| <= 2 && h[0] == Welcome
  {
  }

  class CryptoApp {
    var sessionHistory: seq<string>

    constructor ()
      ensures sessionHistory == [Welcome]
    {
      sessionHistory := [Welcome];
    }

    method PressButton(call: Call, response: Result<Json, string>, stringify: Json -> string)
      returns (thrown: Option<string>)
      requires |sessionHistory| >= 1
      modifies this
      ensures |sessionHistory| >= 1
      ensures (sessionHistory, thrown) == CryptoPress(old(sessionHistory), call, response, stringify)
    {
      if call.name == ListingsFunction {
        sessionHistory := WriteSlot1(sessionHistory, WaitText(call.args, stringify));
        if response.Err? {
          return Some(response.error);
        }
        sessionHistory := WriteSlot1(sessionHistory, ReturnedText(response.value, stringify));
      }
      return None;
    }
  }
}
