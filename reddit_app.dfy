/**
 * The Reddit app. It offers four Reddit endpoints as functions, each with an
 * extra required `goalOfSearch`; a call runs the endpoint, has the model
 * summarize the answer with that goal, and shows the summary as `lastData`.
 */
module RedditApp {
  import opened Common
  import opened RedditApi

  const RedditTools: seq<EndpointName> := ["search", "getBest", "getHot", "getNew"]

  /** The tools of the four endpoints, in that order. */
  function Tools(): (tools: seq<FunctionSchema>)
    ensures |tools| == |RedditTools|
    ensures forall i :: 0 <= i < |tools| ==> tools[i].name == RedditTools[i]
  {
    GetRedditTools(RedditTools)
  }

  const GoalProperty := JObj(map["type" := JStr("string"), "description" := JStr("GPT will summarize data with this goal")])

  /** A tool's schema with the extra required string property `goalOfSearch`. */
  function WithGoal(f: FunctionSchema): FunctionSchema {
    f.(parameters := f.parameters.(
      properties := f.parameters.properties["goalOfSearch" := GoalProperty],
      required := f.parameters.required + ["goalOfSearch"]))
  }

  /**
   * The schema generator: one `c.add` per tool, in tool order, each adding the
   * tool extended with `goalOfSearch`.
   */
  method RedditSchemas(tools: seq<FunctionSchema>) returns (c: seq<FunctionSchema>)
    ensures |c| == |tools|
    ensures forall i :: 0 <= i < |tools| ==>
      && c[i].name == tools[i].name && c[i].description == tools[i].description
      && c[i].parameters.others == tools[i].parameters.others
      && c[i].parameters.required == tools[i].parameters.required + ["goalOfSearch"]
      && c[i].parameters.properties.Keys == tools[i].parameters.properties.Keys + {"goalOfSearch"}
      && c[i].parameters.properties["goalOfSearch"] == GoalProperty
      && forall p :: p in tools[i].parameters.properties && p != "goalOfSearch" ==>
           c[i].parameters.properties[p] == tools[i].parameters.properties[p]
  {
    c := [];
    for i := 0 to |tools|
      invariant |c| == i
      invariant forall j :: 0 <= j < i ==> c[j] == WithGoal(tools[j])
    {
      c := c + [WithGoal(tools[i])];
    }
  }

  const Terminal := "This is a Reddit app terminal. You can search for posts, get the best posts, get hot posts, and get new posts."

  /** The window: the terminal text, then `lastData` when it is not empty; every tool is callable. */
  function RedditWindow(lastData: string): (w: Window)
    ensures w.availableFunctions == RedditTools
    ensures |w.messages| == (if |lastData| > 0 then 2 else 1)
    ensures w.messages[0] == System(Terminal)
    ensures |lastData| > 0 ==> w.messages[1] == System(lastData)
  {
    var tools := Tools();
    Window([System(Terminal)] + (if |lastData| > 0 then [System(lastData)] else []),
           seq(|tools|, i requires 0 <= i < |tools| => tools[i].name))
  }

  /** `const { goalOfSearch, log, ...args } = call.args`: what is passed on to the endpoint. */
  function ToolArgs(args: map<string, Json>): (rest: map<string, Json>)
    ensures "goalOfSearch" !in rest && "log" !in rest
    ensures forall k :: k in args && k != "goalOfSearch" && k != "log" <==> k in rest
    ensures forall k :: k in rest ==> rest[k] == args[k]
  {
    args - {"goalOfSearch", "log"}
  }

  /** The request the model gets to summarize an endpoint's answer. */
  function SummaryPrompt(name: string, args: map<string, Json>, answer: string): string {
    "Summarize the results of the " + name + " tool with the goal of " + ArgText(args, "goalOfSearch") + "\n" + answer
  }

  /**
   * The button-press handler on `lastData`. `execute` stands for the endpoint
   * call and `gpt` for the model (each gives its answer or what it throws),
   * `stringify` for `JSON.stringify`; a throw leaves `lastData` as it was.
   */
  function RedditPress(lastData: string, call: Call,
                       execute: (string, map<string, Json>) -> Result<Json, string>,
                       stringify: Json -> string, gpt: string -> Result<string, string>): Result<string, string>
  {
    if call.name !in RedditTools then
      if call.name == "summarizeResults" then Ok("Summarized results: " + ArgText(call.args, "summarization"))
      else Ok(lastData)
    else
      var answer := execute(call.name, ToolArgs(call.args));
      if answer.Err? then Err(answer.error)
      else
        var summary := gpt(SummaryPrompt(call.name, call.args, stringify(answer.value)));
        if summary.Err? then Err(summary.error)
        else Ok("Summarized results: " + summary.value)
  }

  /**
   * A tool call runs the endpoint of its name with the arguments minus
   * `goalOfSearch` and `log`, and shows the model's summary of the answer
   * made with that goal, and what the endpoint or the model throws is thrown;
   * `summarizeResults` shows its `summarization`; any other name changes nothing.
   */
  lemma RedditPressEffect(lastData: string, call: Call,
                          execute: (string, map<string, Json>) -> Result<Json, string>,
                          stringify: Json -> string, gpt: string -> Result<string, string>)
    ensures var r := RedditPress(lastData, call, execute, stringify, gpt);
      && (call.name !in RedditTools && call.name != "summarizeResults" ==> r == Ok(lastData))
      && (call.name == "summarizeResults" ==>
            r == Ok("Summarized results: " + ArgText(call.args, "summarization")))
      && (call.name in RedditTools ==>
            var answer := execute(call.name, ToolArgs(call.args));
            && (answer.Err? ==> r == Err(answer.error))
            && (answer.Ok? ==>
                  var summary := gpt(SummaryPrompt(call.name, call.args, stringify(answer.value)));
                  && (summary.Err? ==> r == Err(summary.error))
                  && (summary.Ok? ==>
                        r.Ok? && r.value[..20] == "Summarized results: " && r.value[20..] == summary.value)))
  {
    if call.name == "summarizeResults" {
      assert "summarizeResults" !in RedditTools;
    }
  }

  /** The app's state; the model function in it is the `gpt` parameter of `PressButton`. */
  class RedditApp {
    var lastData: string

    constructor ()
      ensures lastData == ""
    {
      lastData := "";
    }

    method PressButton(call: Call, execute: (string, map<string, Json>) -> Result<Json, string>,
                       stringify: Json -> string, gpt: string -> Result<string, string>) returns (thrown: Option<string>)
      modifies this
      ensures var r := RedditPress(old(lastData), call, execute, stringify, gpt);
        && (r.Ok? ==> thrown.None? && lastData == r.value)
        && (r.Err? ==> thrown == Some(r.error) && lastData == old(lastData))
    {
      if call.name !in RedditTools {
        if call.name == "summarizeResults" {
          lastData := "Summarized results: " + ArgText(call.args, "summarization");
        }
        return None;
      }
      var args := ToolArgs(call.args);
      var answer := execute(call.name, args);
      if answer.Err? {
        return Some(answer.error);
      }
      var summary := gpt(SummaryPrompt(call.name, call.args, stringify(answer.value)));
      if summary.Err? {
        return Some(summary.error);
      }
      lastData := "Summarized results: " + summary.value;
      return None;
    }
  }
}
