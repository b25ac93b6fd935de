/** The customer-query agent: gives the customer an immediate first reply. */
module Query {
  import opened Base
  import opened World
  import opened Request
  import opened SupportCases
  import opened Agents

  datatype AgentCustomerQuery = AgentCustomerQuery(common: CommonAgent)

  const Role: string := "Customer Support"
  /** Stands for the receptionist persona text, whose wording the model does not depend on. */
  const Objective: string := "QUERY_OBJECTIVE"

  /** `AgentCustomerQuery::new`. */
  function New(): (a: AgentCustomerQuery)
    ensures a.common.role == Role && a.common.objective == Objective
    ensures a.common.state == Waiting && a.common.memory == []
  {
    AgentCustomerQuery(Agents.New(Role, Objective))
  }

  function PromptFor(a: AgentCustomerQuery, c: SupportCase): Message
  {
    PrepareMessage(a.common.objective, c.supportContext, c.customerQuery)
  }

  function Finish(a: AgentCustomerQuery): AgentCustomerQuery
  {
    a.(common := UpdateState(a.common, Finished))
  }

  /**
   * `handle_initial_query`: the prompt is appended to the trace and sent;
   * a reply becomes the support response and is appended as an assistant
   * message, an error's text becomes the support response instead.
   */
  function HandleInitialQuery(a: AgentCustomerQuery, c: SupportCase, env: Env, io: Io): (r: Exec<AgentCustomerQuery>)
    ensures r.Done?
    ensures SameIdentity(r.agent.common, a.common)
    ensures r.supportCase.supportResponse.Some?
    ensures var ans := AiRequest(env, io, PromptFor(a, c));
      && r.io == Io(ans.io.sent, io.ticks + 1)
      && r.supportCase.updatedAt == env.clock(io.ticks)
      && (ans.reply.Ok? ==>
            && r.supportCase.trace == c.trace + [PromptFor(a, c), Message("assistant", ans.reply.text)]
            && r.supportCase.supportResponse == Some(ans.reply.text)
            && r.agent.common.state == Finished)
      && (ans.reply.Err? ==>
            && r.supportCase.trace == c.trace + [PromptFor(a, c)]
            && r.supportCase.supportResponse == Some(ans.reply.error)
            && r.agent.common.state == Error)
    ensures r.supportCase.(trace := c.trace, updatedAt := c.updatedAt, supportResponse := c.supportResponse) == c
  {
    var a1 := a.(common := UpdateState(a.common, Working));
    var msg := PrepareMessage(a1.common.objective, c.supportContext, c.customerQuery);
    var c1 := c.(trace := c.trace + [msg]);
    var ans := AiRequest(env, io, msg);
    var clk := ReadClock(env, ans.io);
    var c2 := Updated(c1, clk.now);
    match ans.reply
    case Ok(response) =>
      var c3 := c2.(supportResponse := Some(response));
      Done(Finish(a1), c3.(trace := c3.trace + [Message("assistant", response)]), clk.io)
    case Err(e) =>
      Done(a1.(common := UpdateState(a1.common, Error)), c2.(supportResponse := Some(e)), clk.io)
  }

  /** The loop of `execute`: Waiting handles the query once; Error and any other state become Finished. */
  function Drive(a: AgentCustomerQuery, c: SupportCase, env: Env, io: Io): (r: Exec<AgentCustomerQuery>)
    ensures r.Done? && r.agent.common.state == Finished
    ensures SameIdentity(r.agent.common, a.common)
    ensures a.common.state != Waiting ==> r.supportCase == c && r.io == io
    ensures a.common.state == Waiting ==>
      var v := HandleInitialQuery(a, c, env, io); r.supportCase == v.supportCase && r.io == v.io
    decreases StepsLeft(a.common.state)
  {
    match a.common.state
    case Finished => Done(a, c, io)
    case Waiting =>
      var v := HandleInitialQuery(a, c, env, io);
      Drive(v.agent, v.supportCase, env, v.io)
    case Error =>
      // prints the recorded error, then stops
      Drive(Finish(a), c, env, io)
    case Working | Testing =>
      Drive(Finish(a), c, env, io)
  }

  /**
   * `execute`: the loop, then the support response is unwrapped for
   * display. A Waiting agent always leaves a response behind, so only a
   * run that skipped the query on a case without a response can panic.
   */
  function Execute(a: AgentCustomerQuery, c: SupportCase, env: Env, io: Io): (r: Exec<AgentCustomerQuery>)
    ensures a.common.state == Waiting ==> r.Done?
    ensures r.Panicked? <==> a.common.state != Waiting && c.supportResponse.None?
    ensures r.Done? ==> r.agent.common.state == Finished && r.supportCase.supportResponse.Some?
    ensures r.Done? ==> SameIdentity(r.agent.common, a.common)
    ensures r.Done? && a.common.state != Waiting ==> r.supportCase == c && r.io == io
    ensures r.Done? ==> Grows(c, r.supportCase) && |r.supportCase.trace| <= |c.trace| + 2
    ensures r.Done? ==>
      && r.supportCase.sentiment == c.sentiment
      && r.supportCase.intentCategory == c.intentCategory
      && r.supportCase.shouldEscalate == c.shouldEscalate
      && r.supportCase.escalated == c.escalated
      && r.supportCase.needsUpperManagementAttention == c.needsUpperManagementAttention
      && r.supportCase.supportedActions == c.supportedActions
  {
    var d := Drive(a, c, env, io);
    if d.supportCase.supportResponse.None? then Panicked("called `Option::unwrap()` on a `None` value")
    else d
  }
}
