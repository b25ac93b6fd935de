/** The intent agent: classifies the customer's query into an intent category. */
module Intent {
  import opened Base
  import opened World
  import opened Request
  import opened SupportCases
  import opened Agents

  datatype AgentIntent = AgentIntent(common: CommonAgent)

  const Role: string := "Intent Classifier"
  /** Stands for the classifier persona and its list of intents, whose wording the model does not depend on. */
  const Objective: string := "INTENT_OBJECTIVE"

  /** `AgentIntent::new` (also its `Default`). */
  function New(): (a: AgentIntent)
    ensures a.common.role == Role && a.common.objective == Objective
    ensures a.common.state == Waiting && a.common.memory == []
  {
    AgentIntent(Agents.New(Role, Objective))
  }

  function PromptFor(a: AgentIntent, c: SupportCase): Message
  {
    PrepareMessage(a.common.objective, c.supportContext, c.customerQuery)
  }

  function Finish(a: AgentIntent): AgentIntent
  {
    a.(common := UpdateState(a.common, Finished))
  }

  /**
   * `classify_intent`: the prompt is appended to the trace and sent; a
   * reply becomes the intent category, an error's text the support
   * response.
   */
  function ClassifyIntent(a: AgentIntent, c: SupportCase, env: Env, io: Io): (r: Exec<AgentIntent>)
    ensures r.Done?
    ensures SameIdentity(r.agent.common, a.common)
    ensures r.supportCase.trace == c.trace + [PromptFor(a, c)]
    ensures var ans := AiRequest(env, io, PromptFor(a, c));
      && r.io == Io(ans.io.sent, io.ticks + 1)
      && r.supportCase.updatedAt == env.clock(io.ticks)
      && (ans.reply.Ok? ==>
            && r.supportCase.intentCategory == Some(ans.reply.text)
            && r.supportCase.supportResponse == c.supportResponse
            && r.agent.common.state == Finished)
      && (ans.reply.Err? ==>
            && r.supportCase.supportResponse == Some(ans.reply.error)
            && r.supportCase.intentCategory == c.intentCategory
            && r.agent.common.state == Error)
    ensures r.supportCase.(trace := c.trace, updatedAt := c.updatedAt, intentCategory := c.intentCategory,
                           supportResponse := c.supportResponse) == c
  {
    var a1 := a.(common := UpdateState(a.common, Working));
    var msg := PrepareMessage(a1.common.objective, c.supportContext, c.customerQuery);
    var c1 := c.(trace := c.trace + [msg]);
    var ans := AiRequest(env, io, msg);
    var clk := ReadClock(env, ans.io);
    var c2 := Updated(c1, clk.now);
    match ans.reply
    case Ok(response) =>
      Done(Finish(a1), c2.(intentCategory := Some(response)), clk.io)
    case Err(e) =>
      Done(a1.(common := UpdateState(a1.common, Error)), c2.(supportResponse := Some(e)), clk.io)
  }

  /** The loop of `execute`: Waiting classifies once; Error and any other state become Finished. */
  function Drive(a: AgentIntent, c: SupportCase, env: Env, io: Io): (r: Exec<AgentIntent>)
    ensures r.Done? && r.agent.common.state == Finished
    ensures SameIdentity(r.agent.common, a.common)
    ensures a.common.state != Waiting ==> r.supportCase == c && r.io == io
    ensures a.common.state == Waiting ==>
      var v := ClassifyIntent(a, c, env, io); r.supportCase == v.supportCase && r.io == v.io
    decreases StepsLeft(a.common.state)
  {
    match a.common.state
    case Finished => Done(a, c, io)
    case Waiting =>
      var v := ClassifyIntent(a, c, env, io);
      Drive(v.agent, v.supportCase, env, v.io)
    case Error =>
      // prints the recorded error, then stops
      Drive(Finish(a), c, env, io)
    case Working | Testing =>
      Drive(Finish(a), c, env, io)
  }

  /**
   * `execute`: the loop, then the intent category is unwrapped for
   * display and the agent is put back to Waiting, ready for another run.
   */
  function Execute(a: AgentIntent, c: SupportCase, env: Env, io: Io): (r: Exec<AgentIntent>)
    ensures r.Done? ==> r.agent.common.state == Waiting && r.supportCase.intentCategory.Some?
    ensures r.Done? ==> SameIdentity(r.agent.common, a.common) && Grows(c, r.supportCase)
    ensures r.Done? ==> |r.supportCase.trace| <= |c.trace| + 1
    ensures a.common.state != Waiting ==> (r.Panicked? <==> c.intentCategory.None?)
    ensures a.common.state == Waiting ==>
      var ans := AiRequest(env, io, PromptFor(a, c));
      && (ans.reply.Ok? ==> r.Done? && r.supportCase.intentCategory == Some(ans.reply.text))
      && (ans.reply.Err? ==> (r.Panicked? <==> c.intentCategory.None?))
  {
    match Drive(a, c, env, io)
    case Panicked(why) => Panicked(why)
    case Done(a1, c1, io1) =>
      if c1.intentCategory.None? then Panicked("called `Option::unwrap()` on a `None` value")
      else Done(a1.(common := UpdateState(a1.common, Waiting)), c1, io1)
  }
}
