/** The sentiment agent: tags the case Positive or Negative and flags negative cases for escalation. */
module Sentiment {
  import opened Base
  import opened World
  import opened Request
  import opened SupportCases
  import opened Agents

  datatype AgentSentiment = AgentSentiment(common: CommonAgent)

  const Role: string := "Psychologist"
  /** Stands for the psychologist persona text, whose wording the model does not depend on. */
  const Objective: string := "SENTIMENT_OBJECTIVE"

  /** `AgentSentiment::new`. */
  function New(): (a: AgentSentiment)
    ensures a.common.role == Role && a.common.objective == Objective
    ensures a.common.state == Waiting && a.common.memory == []
  {
    AgentSentiment(Agents.New(Role, Objective))
  }

  /** The system prompt sent for a case: the persona, the case context and the customer's query. */
  function PromptFor(a: AgentSentiment, c: SupportCase): Message
  {
    PrepareMessage(a.common.objective, c.supportContext, c.customerQuery)
  }

  function Finish(a: AgentSentiment): AgentSentiment
  {
    a.(common := UpdateState(a.common, Finished))
  }

  /**
   * `analyze_sentiment`: one prompt appended to the trace, one gateway
   * request, the clock read for `updated`, then the reply recorded.
   */
  function AnalyzeSentiment(a: AgentSentiment, c: SupportCase, env: Env, io: Io): (r: Exec<AgentSentiment>)
    ensures r.Done?
    ensures r.supportCase.trace == c.trace + [PromptFor(a, c)]
    ensures r.supportCase.trace[|c.trace|].role == "system"
    ensures SameIdentity(r.agent.common, a.common)
    ensures var ans := AiRequest(env, io, PromptFor(a, c));
      && r.io == Io(ans.io.sent, io.ticks + 1)
      && r.supportCase.updatedAt == env.clock(io.ticks)
      && (ans.reply.Ok? ==>
            && r.supportCase.sentiment == Some(ans.reply.text)
            && (r.supportCase.shouldEscalate <==> c.shouldEscalate || ans.reply.text == "Negative")
            && r.supportCase.supportResponse == c.supportResponse
            && r.agent.common.state == Finished)
      && (ans.reply.Err? ==>
            && r.supportCase.supportResponse == Some(ans.reply.error)
            && r.supportCase.sentiment == c.sentiment
            && r.supportCase.shouldEscalate == c.shouldEscalate
            && r.agent.common.state == Error)
    ensures r.supportCase.(trace := c.trace, updatedAt := c.updatedAt, sentiment := c.sentiment,
                           shouldEscalate := c.shouldEscalate, supportResponse := c.supportResponse) == c
  {
    var a1 := a.(common := UpdateState(a.common, Working));
    var msg := PrepareMessage(a1.common.objective, c.supportContext, c.customerQuery);
    var c1 := c.(trace := c.trace + [msg]);
    var ans := AiRequest(env, io, msg);
    var clk := ReadClock(env, ans.io);
    var c2 := Updated(c1, clk.now);
    match ans.reply
    case Ok(response) =>
      var c3 := c2.(sentiment := Some(response));
      var c4 := if response == "Negative" then c3.(shouldEscalate := true) else c3;
      // any reply other than the two labels passes through Error, which is overwritten at once
      var a2 := if response == "Positive" || response == "Negative" then a1
                else a1.(common := UpdateState(a1.common, Error));
      Done(Finish(a2), c4, clk.io)
    case Err(e) =>
      Done(a1.(common := UpdateState(a1.common, Error)), c2.(supportResponse := Some(e)), clk.io)
  }

  /**
   * `execute`: loops until Finished. Waiting analyses the case once;
   * Error and any other state are turned into Finished. The state is not
   * reset afterwards, so a second run does nothing.
   */
  function Execute(a: AgentSentiment, c: SupportCase, env: Env, io: Io): (r: Exec<AgentSentiment>)
    ensures r.Done? && r.agent.common.state == Finished
    ensures SameIdentity(r.agent.common, a.common)
    ensures a.common.state != Waiting ==> r.supportCase == c && r.io == io
    ensures a.common.state == Waiting ==>
      var v := AnalyzeSentiment(a, c, env, io); r.supportCase == v.supportCase && r.io == v.io
    ensures Grows(c, r.supportCase) && |r.supportCase.trace| <= |c.trace| + 1
    decreases StepsLeft(a.common.state)
  {
    match a.common.state
      case Finished => Done(a, c, io)
      case Waiting =>
        var v := AnalyzeSentiment(a, c, env, io);
        Execute(v.agent, v.supportCase, env, v.io)
      case Error =>
        // prints the recorded error, then stops
        Execute(Finish(a), c, env, io)
      case Working | Testing =>
        Execute(Finish(a), c, env, io)
  }

  /** A successful "Negative" reply escalates; any other successful reply leaves the escalation flag alone. */
  lemma NegativeEscalates(a: AgentSentiment, c: SupportCase, env: Env, io: Io)
    requires a.common.state == Waiting
    requires AiRequest(env, io, PromptFor(a, c)).reply.Ok?
    ensures var r := Execute(a, c, env, io); var text := AiRequest(env, io, PromptFor(a, c)).reply.text;
      && r.supportCase.sentiment == Some(text)
      && (text == "Negative" ==> r.supportCase.shouldEscalate)
      && (text != "Negative" ==> r.supportCase.shouldEscalate == c.shouldEscalate)
  {
  }
}
