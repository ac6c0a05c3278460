/**
 * The step-by-step reasoning chain. A chain keeps a chat history that starts
 * with the system prompt; `generate` adds the query, then asks the model for
 * one step at a time, numbering the steps from 1 and appending each step's
 * content to the history before handing the step out.
 */
module ReasonChain {
  import opened Common

  /** The confidence of a step: the one the model reported, or the default 0.8. */
  datatype Confidence = Reported(value: Json) | DefaultConfidence

  /** One reasoning step. `content` is `None` when the answer has no `content` field. */
  datatype ReasoningStep = ReasoningStep(number: nat, title: Json, content: Option<Json>,
                                         confidence: Confidence, thinkingTime: int)

  const InvalidFormat := "Invalid response format from LLM"

  /** `options.temperature || 0.2`: an absent or zero temperature becomes 0.2. */
  function TemperatureOr(temperature: Option<real>): (t: real)
    ensures t != 0.0
    ensures temperature.Some? && temperature.value != 0.0 ==> t == temperature.value
    ensures temperature.None? || temperature.value == 0.0 ==> t == 0.2
  {
    if temperature.Some? && temperature.value != 0.0 then temperature.value else 0.2
  }

  /** `options.minSteps || 1`: an absent or zero minimum becomes 1. */
  function MinStepsOr(minSteps: Option<int>): (m: int)
    ensures m != 0
    ensures minSteps.Some? && minSteps.value != 0 ==> m == minSteps.value
    ensures minSteps.None? || minSteps.value == 0 ==> m == 1
  {
    if minSteps.Some? && minSteps.value != 0 then minSteps.value else 1
  }

  /** `data[key]` of a parsed answer; a value that is not an object has no fields. */
  function Field(data: Json, key: string): Option<Json> {
    if data.JObj? && key in data.fields then Some(data.fields[key]) else None
  }

  function StepTitle(n: nat): string {
    "Step " + NatToString(n)
  }

  /**
   * `parseResponse`: `parse` stands for `JSON.parse` (`None` when it throws).
   * Reading a field of `null` throws too, so a `null` answer is rejected.
   */
  function ParseResponse(stepNumber: nat, response: string, thinkingTime: int,
                         parse: string -> Option<Json>): (r: Result<ReasoningStep, string>)
    ensures r.Err? <==> parse(response).None? || parse(response) == Some(JNull)
    ensures r.Err? ==> r.error == InvalidFormat
    ensures r.Ok? ==> var data := parse(response).value;
      && r.value.number == stepNumber && r.value.thinkingTime == thinkingTime
      && r.value.content == Field(data, "content")
      && (Field(data, "title").Some? && Truthy(Field(data, "title").value) ==> r.value.title == Field(data, "title").value)
      && (Field(data, "title").None? || !Truthy(Field(data, "title").value) ==> r.value.title == JStr(StepTitle(stepNumber)))
      && (Field(data, "confidence").Some? && Truthy(Field(data, "confidence").value) ==>
            r.value.confidence == Reported(Field(data, "confidence").value))
      && (Field(data, "confidence").None? || !Truthy(Field(data, "confidence").value) ==>
            r.value.confidence == DefaultConfidence)
  {
    var parsed := parse(response);
    if parsed.None? || parsed.value.JNull? then Err(InvalidFormat)
    else
      var data := parsed.value;
      var title := Field(data, "title");
      var confidence := Field(data, "confidence");
      Ok(ReasoningStep(stepNumber,
                       if title.Some? && Truthy(title.value) then title.value else JStr(StepTitle(stepNumber)),
                       Field(data, "content"),
                       if confidence.Some? && Truthy(confidence.value) then Reported(confidence.value) else DefaultConfidence,
                       thinkingTime))
  }

  /** The history entry of a step: "Step n: " followed by its content as text. */
  function StepMessage(step: ReasoningStep): Message {
    Message("assistant", StepTitle(step.number) + ": " + (if step.content.Some? then Text(step.content.value) else "undefined"))
  }

  /** The steps handed out, the history afterwards, and the error that ended the run, if any. */
  datatype Run = Run(steps: seq<ReasoningStep>, history: seq<Message>, error: Option<string>)

  /**
   * Step `n` asked for on `history`: the model's rejection, or its answer parsed.
   * `executor` stands for the model (it sees the history and the temperature,
   * and gives its answer or what it rejects with) and `thinking` for the time
   * the step took.
   */
  function NextStep(history: seq<Message>, n: nat, temperature: real,
                    executor: (seq<Message>, real) -> Result<string, string>, parse: string -> Option<Json>,
                    thinking: nat -> int): Result<ReasoningStep, string>
  {
    var response := executor(history, temperature);
    if response.Err? then Err(response.error)
    else ParseResponse(n, response.value, thinking(n), parse)
  }

  /** The next `k` steps of `generate`, starting with step `n` on `history`. */
  function Steps(history: seq<Message>, n: nat, k: nat, temperature: real,
                 executor: (seq<Message>, real) -> Result<string, string>, parse: string -> Option<Json>,
                 thinking: nat -> int): Run
    decreases k
  {
    if k == 0 then Run([], history, None)
    else
      var step := NextStep(history, n, temperature, executor, parse, thinking);
      if step.Err? then Run([], history, Some(step.error))
      else
        var rest := Steps(history + [StepMessage(step.value)], n + 1, k - 1, temperature, executor, parse, thinking);
        Run([step.value] + rest.steps, rest.history, rest.error)
  }

  /**
   * How many steps `k` requests starting at `n` give, and their numbers: all
   * `k` unless the run ends early, numbered consecutively from `n`. A run
   * ends early only on the model's rejection, with that error, or on an
   * unparsable answer, with "Invalid response format from LLM"; either is the
   * answer to the history as it stands at the end. No step ends the run by itself.
   */
  lemma {:induction false} StepsCount(history: seq<Message>, n: nat, k: nat, temperature: real,
                                      executor: (seq<Message>, real) -> Result<string, string>, parse: string -> Option<Json>,
                                      thinking: nat -> int)
    ensures var r := Steps(history, n, k, temperature, executor, parse, thinking);
      && (r.error.None? ==> |r.steps| == k)
      && (r.error.Some? ==> |r.steps| < k)
      && (r.error.Some? ==>
            var response := executor(r.history, temperature);
            r.error == Some(if response.Err? then response.error else InvalidFormat))
      && (forall i :: 0 <= i < |r.steps| ==> r.steps[i].number == n + i)
    decreases k
  {
    if k > 0 {
      var step := NextStep(history, n, temperature, executor, parse, thinking);
      if step.Ok? {
        var h := history + [StepMessage(step.value)];
        StepsCount(h, n + 1, k - 1, temperature, executor, parse, thinking);
        var rest := Steps(h, n + 1, k - 1, temperature, executor, parse, thinking);
        var r := Steps(history, n, k, temperature, executor, parse, thinking);
        assert r.steps == [step.value] + rest.steps;
        forall i | 0 <= i < |r.steps|
          ensures r.steps[i].number == n + i
        {
          if i > 0 {
            assert r.steps[i] == rest.steps[i - 1];
          }
        }
      }
    }
  }

  /**
   * The history after `k` requested steps grows by exactly the steps'
   * messages, in order: the old history is kept as a prefix.
   */
  lemma {:induction false} StepsHistory(history: seq<Message>, n: nat, k: nat, temperature: real,
                                        executor: (seq<Message>, real) -> Result<string, string>, parse: string -> Option<Json>,
                                        thinking: nat -> int)
    ensures var r := Steps(history, n, k, temperature, executor, parse, thinking);
      && |r.history| == |history| + |r.steps|
      && r.history[..|history|] == history
      && (forall i :: 0 <= i < |r.steps| ==> r.history[|history| + i] == StepMessage(r.steps[i]))
    decreases k
  {
    if k > 0 {
      var step := NextStep(history, n, temperature, executor, parse, thinking);
      if step.Ok? {
        var h := history + [StepMessage(step.value)];
        StepsHistory(h, n + 1, k - 1, temperature, executor, parse, thinking);
        var rest := Steps(h, n + 1, k - 1, temperature, executor, parse, thinking);
        var r := Steps(history, n, k, temperature, executor, parse, thinking);
        assert r.steps == [step.value] + rest.steps;
        assert r.history[..|history|] == h[..|history|];
        forall i | 0 <= i < |r.steps|
          ensures r.history[|history| + i] == StepMessage(r.steps[i])
        {
          if i > 0 {
            assert r.history[|h| + (i - 1)] == StepMessage(rest.steps[i - 1]);
          }
        }
      }
    }
  }

  /** One step of `Steps`, seen from the end of what has been handed out so far. */
  function Prepend(steps: seq<ReasoningStep>, r: Run): Run {
    Run(steps + r.steps, r.history, r.error)
  }

  /** `Steps` after one parsed answer: that step, then the rest on the longer history. */
  lemma StepOnce(history: seq<Message>, n: nat, k: nat, temperature: real,
                 executor: (seq<Message>, real) -> Result<string, string>, parse: string -> Option<Json>,
                 thinking: nat -> int, done: seq<ReasoningStep>, step: Result<ReasoningStep, string>)
    requires k > 0 && step == NextStep(history, n, temperature, executor, parse, thinking)
    ensures step.Err? ==> Prepend(done, Steps(history, n, k, temperature, executor, parse, thinking))
                          == Run(done, history, Some(step.error))
    ensures step.Ok? ==> Prepend(done, Steps(history, n, k, temperature, executor, parse, thinking))
                         == Prepend(done + [step.value], Steps(history + [StepMessage(step.value)], n + 1, k - 1,
                                                              temperature, executor, parse, thinking))
  {
    if step.Ok? {
      var rest := Steps(history + [StepMessage(step.value)], n + 1, k - 1, temperature, executor, parse, thinking);
      assert done + ([step.value] + rest.steps) == (done + [step.value]) + rest.steps;
    } else {
      assert done + [] == done;
    }
  }

  class ReasonChain {
    var chatHistory: seq<Message>
    var minSteps: int
    var temperature: real

    /** The system prompt is a parameter: the prompt text is not part of this model. */
    constructor (systemPrompt: string, temperature: Option<real>, minSteps: Option<int>)
      ensures chatHistory == [System(systemPrompt)]
      ensures this.temperature == TemperatureOr(temperature) && this.minSteps == MinStepsOr(minSteps)
    {
      this.temperature := TemperatureOr(temperature);
      this.minSteps := MinStepsOr(minSteps);
      chatHistory := [System(systemPrompt)];
    }

    /**
     * `generate(query)`, consumed for `pulls` steps (the generator itself never
     * stops: `minSteps` is not consulted). `error` is what the model rejected
     * with or the error thrown by a step's parsing. The generator's body runs
     * only when a step is asked for, so a generator never pulled leaves the
     * history as it was.
     */
    method Generate(query: string, pulls: nat, executor: (seq<Message>, real) -> Result<string, string>,
                    parse: string -> Option<Json>, thinking: nat -> int)
      returns (steps: seq<ReasoningStep>, error: Option<string>)
      modifies this
      ensures temperature == old(temperature) && minSteps == old(minSteps)
      ensures pulls == 0 ==> steps == [] && error.None? && chatHistory == old(chatHistory)
      ensures pulls > 0 ==>
        Run(steps, chatHistory, error) == Steps(old(chatHistory) + [Message("user", query)], 1, pulls, temperature, executor, parse, thinking)
    {
      if pulls == 0 {
        return [], None;
      }
      chatHistory := chatHistory + [Message("user", query)];
      ghost var start := chatHistory;
      var temp := temperature;
      var stepNumber := 1;
      steps := [];
      error := None;
      ghost var run := Steps(start, 1, pulls, temp, executor, parse, thinking);
      while |steps| < pulls
        invariant stepNumber == |steps| + 1 && |steps| <= pulls
        invariant temperature == temp && minSteps == old(minSteps)
        invariant run == Prepend(steps, Steps(chatHistory, stepNumber, pulls - |steps|, temp, executor, parse, thinking))
        decreases pulls - |steps|
      {
        var response := executor(chatHistory, temp);
        var step := if response.Err? then Err(response.error)
                    else ParseResponse(stepNumber, response.value, thinking(stepNumber), parse);
        StepOnce(chatHistory, stepNumber, pulls - |steps|, temp, executor, parse, thinking, steps, step);
        if step.Err? {
          error := Some(step.error);
          assert run == Run(steps, chatHistory, error);
          return;
        }
        chatHistory := chatHistory + [StepMessage(step.value)];
        steps := steps + [step.value];
        stepNumber := stepNumber + 1;
      }
      assert steps + [] == steps;
    }
  }
}
