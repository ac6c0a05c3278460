/**
 * The API-watch addon. Its hooks pass everything through unchanged, but the
 * window and base-prompt hooks record, per agent, the last window the agent
 * was shown and its base prompt, so that an observer can see what each agent
 * sees.
 */
module ApiWatch {
  import opened Common

  /** What is recorded for one agent. */
  datatype AgentView = AgentView(basePrompt: string, window: Window)

  const EmptyWindow := Window([], [])
  const AgentNotFound := "Agent not found"

  /** The window hook on the record: the window replaces the old one, the base prompt stays ("" for a new agent). */
  function RecordWindow(states: map<string, AgentView>, agent: string, window: Window): (r: map<string, AgentView>)
    ensures r.Keys == states.Keys + {agent}
    ensures r[agent].window == window
    ensures r[agent].basePrompt == if agent in states then states[agent].basePrompt else ""
    ensures forall a :: a in states && a != agent ==> r[a] == states[a]
  {
    states[agent := AgentView(if agent in states then states[agent].basePrompt else "", window)]
  }

  /** The base-prompt hook on the record: the prompt replaces the old one, the window stays (empty for a new agent). */
  function RecordPrompt(states: map<string, AgentView>, agent: string, prompt: string): (r: map<string, AgentView>)
    ensures r.Keys == states.Keys + {agent}
    ensures r[agent].basePrompt == prompt
    ensures r[agent].window == if agent in states then states[agent].window else EmptyWindow
    ensures forall a :: a in states && a != agent ==> r[a] == states[a]
  {
    var entry := if agent in states then states[agent] else AgentView("", EmptyWindow);
    states[agent := entry.(basePrompt := prompt)]
  }

  /** The `/agent/window/:agentName` answer: the base prompt as a system message, then the window. */
  function AgentWindow(states: map<string, AgentView>, agent: string): (r: Result<Window, string>)
    ensures agent !in states <==> r == Err(AgentNotFound)
    ensures agent in states ==> (r.Ok?
      && r.value.messages == [System(states[agent].basePrompt)] + states[agent].window.messages
      && r.value.availableFunctions == states[agent].window.availableFunctions)
  {
    if agent !in states then Err(AgentNotFound)
    else Ok(Window([System(states[agent].basePrompt)] + states[agent].window.messages,
                   states[agent].window.availableFunctions))
  }

  /** The `/agent/list` answer: every agent with a record (the listing order is not modelled). */
  function AgentList(states: map<string, AgentView>): (agents: set<string>)
    ensures forall a :: a in agents <==> AgentWindow(states, a).Ok?
  {
    states.Keys
  }

  /**
   * After an agent's base prompt and window have both been recorded, in either
   * order, its view is that prompt followed by that window, and the agent is
   * listed.
   */
  lemma ViewAfterBothHooks(states: map<string, AgentView>, agent: string, prompt: string, window: Window)
    ensures AgentWindow(RecordWindow(RecordPrompt(states, agent, prompt), agent, window), agent)
            == Ok(Window([System(prompt)] + window.messages, window.availableFunctions))
    ensures AgentWindow(RecordPrompt(RecordWindow(states, agent, window), agent, prompt), agent)
            == Ok(Window([System(prompt)] + window.messages, window.availableFunctions))
    ensures agent in AgentList(RecordWindow(RecordPrompt(states, agent, prompt), agent, window))
  {
  }

  /** Recording for one agent changes no other agent's view, and no agent is ever dropped. */
  lemma OtherAgentsUnchanged(states: map<string, AgentView>, agent: string, other: string, prompt: string, window: Window)
    requires other != agent
    ensures AgentWindow(RecordWindow(states, agent, window), other) == AgentWindow(states, other)
    ensures AgentWindow(RecordPrompt(states, agent, prompt), other) == AgentWindow(states, other)
    ensures AgentList(states) <= AgentList(RecordWindow(states, agent, window))
    ensures AgentList(states) <= AgentList(RecordPrompt(states, agent, prompt))
  {
  }

  /** The module-level `windowsStates` record and the two hooks that update it. */
  class WindowsStates {
    var states: map<string, AgentView>

    constructor ()
      ensures states == map[]
    {
      states := map[];
    }

    /** The window hook: returns the window unchanged and records it. */
    method WindowMiddleware(agent: string, window: Window) returns (w: Window)
      modifies this
      ensures w == window
      ensures states == RecordWindow(old(states), agent, window)
    {
      var basePrompt := if agent in states then states[agent].basePrompt else "";
      states := states[agent := AgentView(basePrompt, window)];
      w := window;
    }

    /** The base-prompt hook: returns the prompt unchanged and records it. */
    method BasePromptMiddleware(agent: string, prompt: string) returns (p: string)
      modifies this
      ensures p == prompt
      ensures states == RecordPrompt(old(states), agent, prompt)
    {
      if agent !in states {
        states := states[agent := AgentView("", EmptyWindow)];
      }
      states := states[agent := states[agent].(basePrompt := prompt)];
      p := prompt;
    }
  }
}
