/**
 * The log-compaction addon of the operating-system app. Every function gains a
 * mandatory `log` argument whose text is appended to a running log; the log is
 * shown at the top of every window. Once the log holds more than ten entries
 * the only callable function is `summaryLogs`, which replaces the whole log
 * with the single summary it is given.
 */
module ReasoningLog {
  import opened Common

  const LogThreshold := 10

  const LogProperty := JObj(map[
    "type" := JStr("string"),
    "description" := JStr("If you understood something, write it in the log. If you did something, write it in the log.")])

  /** A function schema with the extra string property `log`, which is also made required. */
  function WithLog(f: FunctionSchema): FunctionSchema {
    f.(parameters := f.parameters.(
      properties := f.parameters.properties["log" := LogProperty],
      required := f.parameters.required + ["log"]))
  }

  /** The description of `summary`, one sentence per part. */
  function SummaryDescription(): string {
    Join([
      "Summary of the log.",
      "Highlight all important points: what you did, what you learned, what you will do next.",
      "Сейчас мы удалим все логи и заменим их тем, что ты здесь напишешь.",
      "Оставь здесь важную информацию."], " ")
  }

  function SummaryLogsSchema(): FunctionSchema {
    FunctionSchema("summaryLogs", "Summarize the log", ParamSchema(
      map["summary" := JObj(map[
        "type" := JStr("string"),
        "description" := JStr(SummaryDescription())])],
      ["summary"],
      map["type" := JStr("object")]))
  }

  /** The schema middleware: every incoming function gets `log`, and `summaryLogs` is added. */
  function LogSchemas(fs: map<string, FunctionSchema>): map<string, FunctionSchema> {
    (map k | k in fs :: WithLog(fs[k]))["summaryLogs" := SummaryLogsSchema()]
  }

  /**
   * Every incoming function is extended by `WithLog`; `summaryLogs` is
   * declared, requires only `summary` and has no `log`.
   */
  lemma LogSchemasExtend(fs: map<string, FunctionSchema>)
    ensures var r := LogSchemas(fs);
      && r.Keys == fs.Keys + {"summaryLogs"}
      && r["summaryLogs"].parameters.required == ["summary"]
      && "log" !in r["summaryLogs"].parameters.properties
      && forall k :: k in fs && k != "summaryLogs" ==> r[k] == WithLog(fs[k])
  {
    var r := LogSchemas(fs);
    var summary := SummaryLogsSchema().parameters.properties;
    assert summary.Keys == {"summary"};
    assert "log" != "summary";
  }

  /**
   * A function extended with `log` keeps its name, description, other keys,
   * properties and required entries, and gains a string `log` required last.
   */
  lemma WithLogExtends(f: FunctionSchema)
    ensures var g := WithLog(f);
      && g.name == f.name && g.description == f.description
      && g.parameters.others == f.parameters.others
      && g.parameters.required == f.parameters.required + ["log"]
      && g.parameters.properties.Keys == f.parameters.properties.Keys + {"log"}
      && g.parameters.properties["log"] == LogProperty
      && forall p :: p in f.parameters.properties && p != "log" ==>
           g.parameters.properties[p] == f.parameters.properties[p]
  {
  }

  function LogMessage(log: seq<string>): Message {
    Message("assistant", "LOG:\n" + Join(log, "\n"))
  }

  /** The window middleware. */
  function LogWindow(w: Window, log: seq<string>): Window {
    if |log| > LogThreshold then Window([LogMessage(log)] + w.messages, ["summaryLogs"])
    else Window([LogMessage(log)] + w.messages, w.availableFunctions)
  }

  /**
   * The log is shown first, ahead of the incoming messages in order; the
   * callable functions are the incoming ones until the log exceeds ten
   * entries, and then `summaryLogs` alone. Every function offered has a schema
   * after the schema middleware when it had one before.
   */
  lemma LogWindowGate(w: Window, log: seq<string>, fs: map<string, FunctionSchema>)
    ensures var r := LogWindow(w, log);
      && |r.messages| == |w.messages| + 1
      && r.messages[0] == LogMessage(log)
      && r.messages[1..] == w.messages
      && (|log| > LogThreshold ==> r.availableFunctions == ["summaryLogs"])
      && (|log| <= LogThreshold ==> r.availableFunctions == w.availableFunctions)
    ensures (forall f :: f in w.availableFunctions ==> f in fs) ==>
      forall f :: f in LogWindow(w, log).availableFunctions ==> f in LogSchemas(fs)
  {
    assert ([LogMessage(log)] + w.messages)[1..] == w.messages;
    LogSchemasExtend(fs);
  }

  /** `summaryLogs` needs its `summary`, which the schema marks as a required string. */
  predicate ValidLogCall(call: Call) {
    call.name == "summaryLogs" ==> "summary" in call.args && call.args["summary"].JStr?
  }

  /** The button-press middleware. */
  function LogPress(log: seq<string>, call: Call): seq<string>
    requires ValidLogCall(call)
  {
    var logged := if "log" in call.args then log + ["I called " + call.name + ". " + Text(call.args["log"])] else log;
    if call.name == "summaryLogs" then [call.args["summary"].s] else logged
  }

  /**
   * A call carrying `log` appends exactly one entry naming the call; one
   * without changes nothing; `summaryLogs` replaces the log by its summary.
   */
  lemma LogPressEffect(log: seq<string>, call: Call)
    requires ValidLogCall(call)
    ensures call.name == "summaryLogs" ==> LogPress(log, call) == [call.args["summary"].s]
    ensures call.name != "summaryLogs" && "log" in call.args ==>
      |LogPress(log, call)| == |log| + 1 && LogPress(log, call)[..|log|] == log
      && LogPress(log, call)[|log|] == "I called " + call.name + ". " + Text(call.args["log"])
    ensures call.name != "summaryLogs" && "log" !in call.args ==> LogPress(log, call) == log
  {
    if call.name != "summaryLogs" && "log" in call.args {
      assert LogPress(log, call)[..|log|] == log;
    }
  }

  /**
   * The compaction cycle: a full log of ten entries takes one more logged call
   * and then offers only `summaryLogs`; calling it with summary `S` leaves the
   * log `[S]` and gives back the incoming functions.
   */
  lemma CompactionCycle(log: seq<string>, call: Call, summary: string, w: Window)
    requires |log| == LogThreshold
    requires call.name != "summaryLogs" && "log" in call.args
    ensures var full := LogPress(log, call);
      var compacted := LogPress(full, Call("summaryLogs", map["summary" := JStr(summary)]));
      && |full| == LogThreshold + 1
      && LogWindow(w, full).availableFunctions == ["summaryLogs"]
      && compacted == [summary]
      && LogWindow(w, compacted).availableFunctions == w.availableFunctions
  {
    LogPressEffect(log, call);
  }

  const LogPromptPrefix := "WHEN SWITCHING BETWEEN APPLICATIONS - INFORMATION IS ERASED! WRITE ALL NECESSARY INFORMATION IN LOG AND MEMORY, OTHERWISE IT WILL BE DELETED (tasks, task results, thoughts, errors). If you understood something, write it in the log. If you did something, write it in the log. Below you have the LOG of previous actions. This is the most important thing you have. Rely on it. Don't repeat actions from there, think through new behavior strategies. "

  /** The base-prompt middleware: the fixed instruction, then the incoming prompt unchanged. */
  function LogPrompt(prompt: string): (r: string)
    ensures |r| == |LogPromptPrefix| + |prompt|
    ensures r[..|LogPromptPrefix|] == LogPromptPrefix && r[|LogPromptPrefix|..] == prompt
  {
    LogPromptPrefix + prompt
  }

  /** The addon's state: the log, which the button-press middleware updates in place. */
  class LogAddon {
    var log: seq<string>

    constructor ()
      ensures log == []
    {
      log := [];
    }

    method PressButton(call: Call)
      requires ValidLogCall(call)
      modifies this
      ensures log == LogPress(old(log), call)
    {
      if "log" in call.args {
        log := log + ["I called " + call.name + ". " + Text(call.args["log"])];
      }
      if call.name == "summaryLogs" {
        log := [call.args["summary"].s];
      }
    }
  }
}
