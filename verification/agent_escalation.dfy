/** The escalation agent: proposes resolving actions and picks one, or hands the case to upper management. */
module Escalation {
  import opened Base
  import opened World
  import opened Request
  import opened SupportCases
  import opened Agents

  datatype AgentEscalation = AgentEscalation(common: CommonAgent)

  const Role: string := "Escalation Manager"
  /** Stands for the escalation-manager persona text, whose wording the model does not depend on. */
  const Objective: string := "ESCALATION_OBJECTIVE"
  /** Stands for the instruction asking for a JSON array of resolving actions. */
  const ActionsPrompt: string := "ACTIONS_PROMPT"
  /** The reply that hands the case to upper management. */
  const UpperManagement: string := "upper management"

  /** `AgentEscalation::new`. */
  function New(): (a: AgentEscalation)
    ensures a.common.role == Role && a.common.objective == Objective
    ensures a.common.state == Waiting && a.common.memory == []
  {
    AgentEscalation(Agents.New(Role, Objective))
  }

  function WithState(a: AgentEscalation, s: AgentState): AgentEscalation
  {
    a.(common := UpdateState(a.common, s))
  }

  /** The prompt asking for the list of resolving actions. */
  function ActionsPromptFor(c: SupportCase): Message
  {
    PrepareMessage(ActionsPrompt, c.supportContext, c.customerQuery)
  }

  /** The prompt asking to choose one of the case's actions (or upper management). */
  function DecisionPromptFor(a: AgentEscalation, c: SupportCase): Message
  {
    PrepareMessage(a.common.objective + ActionsMarker + Join(c.supportedActions, ","),
                   c.supportContext, c.customerQuery)
  }

  /** What separates the objective from the comma-joined actions in the decision prompt. */
  const ActionsMarker: string := " ONLY AVAILABLE ACTIONS:"

  /** The actions request reads back as the actions instruction over the case's context and customer query. */
  lemma ActionsPromptReadsBack(c: SupportCase)
    ensures ActionsPromptFor(c).role == "system"
    ensures ParsePrompt(ActionsPromptFor(c).content) == Some(Prompt(ActionsPrompt, c.supportContext, c.customerQuery))
  {
    PromptRoundTrip(ActionsPrompt, c.supportContext, c.customerQuery);
  }

  /**
   * The decision request reads back as the case's context and customer
   * query under an instruction that opens with the agent's objective and
   * ends with the case's actions joined by commas.
   */
  lemma DecisionPromptReadsBack(a: AgentEscalation, c: SupportCase)
    ensures DecisionPromptFor(a, c).role == "system"
    ensures var o := a.common.objective + ActionsMarker + Join(c.supportedActions, ",");
      && ParsePrompt(DecisionPromptFor(a, c).content) == Some(Prompt(o, c.supportContext, c.customerQuery))
      && a.common.objective + ActionsMarker <= o
      && (|c.supportedActions| > 0 ==> c.supportedActions[0] <= o[|a.common.objective + ActionsMarker|..])
  {
    var o := a.common.objective + ActionsMarker + Join(c.supportedActions, ",");
    PromptRoundTrip(o, c.supportContext, c.customerQuery);
    assert o[|a.common.objective + ActionsMarker|..] == Join(c.supportedActions, ",");
  }

  /** The fields the escalation agent never writes besides those in `Grows`. */
  predicate Untouched(c: SupportCase, c': SupportCase)
  {
    c'.sentiment == c.sentiment && c'.intentCategory == c.intentCategory && c'.shouldEscalate == c.shouldEscalate
  }

  /**
   * `populate_resolving_actions`: asks for the actions as a JSON string
   * array. A reply replaces the case's actions and leaves the agent
   * Working; a reply that is not such an array panics; a failed request
   * leaves the agent in Error and the actions as they were. The clock is
   * not read.
   */
  function PopulateResolvingActions(a: AgentEscalation, c: SupportCase, env: Env, io: Io): (r: Exec<AgentEscalation>)
    ensures var reply := AiRequest(env, io, ActionsPromptFor(c)).reply;
      r.Panicked? <==> reply.Ok? && env.parseStrings(reply.text).None?
    ensures r.Done? ==> r.io == AiRequest(env, io, ActionsPromptFor(c)).io
    ensures r.Done? ==> SameIdentity(r.agent.common, a.common)
    ensures r.Done? ==> r.agent.common.state == Working || r.agent.common.state == Error
    ensures r.Done? ==> r.supportCase.trace == c.trace + [ActionsPromptFor(c)]
    ensures var reply := AiRequest(env, io, ActionsPromptFor(c)).reply;
      r.Done? && reply.Ok? ==>
        && env.parseStrings(reply.text) == Some(r.supportCase.supportedActions)
        && r.agent.common.state == Working
    ensures var reply := AiRequest(env, io, ActionsPromptFor(c)).reply;
      r.Done? && reply.Err? ==>
        && r.supportCase.supportedActions == c.supportedActions
        && r.agent.common.state == Error
    ensures r.Done? ==> r.supportCase.(trace := c.trace, supportedActions := c.supportedActions) == c
  {
    var a1 := WithState(a, Working);
    var msg := ActionsPromptFor(c);
    var c1 := c.(trace := c.trace + [msg]);
    var ans := AiRequest(env, io, msg);
    if ans.reply.Err? then Done(WithState(a1, Error), c1, ans.io)
    else
      var parsed := env.parseStrings(ans.reply.text);
      if parsed.None? then Panicked("should be parsed into json")
      else Done(WithState(a1, Working), c1.(supportedActions := parsed.value), ans.io)
  }

  /**
   * `handle_escalation`: asks which action to take. "upper management"
   * sets both escalation flags; any other reply becomes the support
   * response; a failed request changes neither. The case is then marked
   * updated and the agent Finished, whatever happened.
   */
  function HandleEscalation(a: AgentEscalation, c: SupportCase, env: Env, io: Io): (r: Exec<AgentEscalation>)
    ensures r.Done? && r.agent.common.state == Finished
    ensures SameIdentity(r.agent.common, a.common)
    ensures r.supportCase.trace == c.trace + [DecisionPromptFor(a, c)]
    ensures var ans := AiRequest(env, io, DecisionPromptFor(a, c));
      && r.io == Io(ans.io.sent, io.ticks + 1)
      && r.supportCase.updatedAt == env.clock(io.ticks)
      && (ans.reply == Ok(UpperManagement) ==>
            && r.supportCase.needsUpperManagementAttention && r.supportCase.escalated
            && r.supportCase.supportResponse == c.supportResponse)
      && (ans.reply.Ok? && ans.reply.text != UpperManagement ==>
            && r.supportCase.supportResponse == Some(ans.reply.text)
            && r.supportCase.needsUpperManagementAttention == c.needsUpperManagementAttention
            && r.supportCase.escalated == c.escalated)
      && (ans.reply.Err? ==>
            && r.supportCase.supportResponse == c.supportResponse
            && r.supportCase.needsUpperManagementAttention == c.needsUpperManagementAttention
            && r.supportCase.escalated == c.escalated)
    ensures r.supportCase.(trace := c.trace, updatedAt := c.updatedAt, supportResponse := c.supportResponse,
                           needsUpperManagementAttention := c.needsUpperManagementAttention,
                           escalated := c.escalated) == c
    ensures Grows(c, r.supportCase) && Untouched(c, r.supportCase)
  {
    var a1 := WithState(a, Working);
    var msg := DecisionPromptFor(a1, c);
    var c1 := c.(trace := c.trace + [msg]);
    var ans := AiRequest(env, io, msg);
    var c2 :=
      match ans.reply
      case Ok(action) =>
        if action == UpperManagement then c1.(needsUpperManagementAttention := true, escalated := true)
        else c1.(supportResponse := Some(action))
      case Err(_) => c1;
    // a failed request puts the agent in Error, which the final Finished overwrites
    var a2 := if ans.reply.Err? then WithState(a1, Error) else a1;
    var clk := ReadClock(env, ans.io);
    Done(WithState(a2, Finished), Updated(c2, clk.now), clk.io)
  }

  function Rank(s: AgentState): nat
  {
    match s
    case Finished => 0
    case Waiting => 3
    case Working => 2
    case _ => 1
  }

  /** How many more prompts a run may append to the trace from state `s`. */
  function PromptsLeft(s: AgentState): nat
  {
    match s
    case Waiting => 2
    case Working => 1
    case _ => 0
  }

  /**
   * One iteration of the loop in `execute`: Waiting gathers the actions,
   * Working decides, Error and any other state become Finished. Each
   * iteration brings the agent closer to Finished.
   */
  function Step(a: AgentEscalation, c: SupportCase, env: Env, io: Io): Exec<AgentEscalation>
    requires a.common.state != Finished
  {
    match a.common.state
    case Waiting => PopulateResolvingActions(a, c, env, io)
    case Working => HandleEscalation(a, c, env, io)
    case Error | Testing => Done(WithState(a, Finished), c, io)
  }

  /**
   * A step brings the agent closer to Finished, keeps its identity, only
   * grows the case, and never appends more prompts than the state allows.
   */
  lemma StepFrame(a: AgentEscalation, c: SupportCase, env: Env, io: Io)
    requires a.common.state != Finished
    ensures var r := Step(a, c, env, io);
      r.Done? ==>
        && Rank(r.agent.common.state) < Rank(a.common.state)
        && SameIdentity(r.agent.common, a.common) && Grows(c, r.supportCase) && Untouched(c, r.supportCase)
        && |r.supportCase.trace| + PromptsLeft(r.agent.common.state) <= |c.trace| + PromptsLeft(a.common.state)
  {
    match a.common.state
    case Waiting =>
      var r := PopulateResolvingActions(a, c, env, io);
      assert r.Done? ==> r.agent.common.state == Working || r.agent.common.state == Error;
      if r.Done? {
        assert r.supportCase.(trace := c.trace, supportedActions := c.supportedActions) == c;
        assert r.supportCase.trace == c.trace + [ActionsPromptFor(c)];
      }
    case Working =>
    case Error | Testing =>
  }

  /**
   * `execute`: repeats the loop's step while the agent is not Finished
   * and the case asks for escalation.
   */
  function Execute(a: AgentEscalation, c: SupportCase, env: Env, io: Io): (r: Exec<AgentEscalation>)
    ensures !c.shouldEscalate ==> r == Done(a, c, io)
    ensures r.Done? && c.shouldEscalate ==> r.agent.common.state == Finished
    ensures r.Done? ==> SameIdentity(r.agent.common, a.common) && Grows(c, r.supportCase)
    ensures r.Done? ==> |r.supportCase.trace| <= |c.trace| + PromptsLeft(a.common.state)
    ensures r.Done? ==> Untouched(c, r.supportCase)
    ensures a.common.state == Finished ==> r == Done(a, c, io)
    decreases Rank(a.common.state)
  {
    if a.common.state == Finished || !c.shouldEscalate then Done(a, c, io)
    else
      var s := Step(a, c, env, io);
      StepFrame(a, c, env, io);
      if s.Panicked? then s else Execute(s.agent, s.supportCase, env, s.io)
  }

  /** From Waiting, a run is the actions request followed by a run from the state it leaves. */
  lemma ExecuteFromWaiting(a: AgentEscalation, c: SupportCase, env: Env, io: Io)
    requires a.common.state == Waiting && c.shouldEscalate
    ensures var p := PopulateResolvingActions(a, c, env, io);
      Execute(a, c, env, io) == if p.Panicked? then p else Execute(p.agent, p.supportCase, env, p.io)
  {
    assert Step(a, c, env, io) == PopulateResolvingActions(a, c, env, io);
  }

  /** From Working, a run is exactly one decision. */
  lemma ExecuteFromWorking(a: AgentEscalation, c: SupportCase, env: Env, io: Io)
    requires a.common.state == Working && c.shouldEscalate
    ensures Execute(a, c, env, io) == HandleEscalation(a, c, env, io)
  {
    var h := HandleEscalation(a, c, env, io);
    assert Step(a, c, env, io) == h;
    assert Execute(h.agent, h.supportCase, env, h.io) == h;
  }

  /** From Error, a run only marks the agent Finished. */
  lemma ExecuteFromError(a: AgentEscalation, c: SupportCase, env: Env, io: Io)
    requires a.common.state == Error && c.shouldEscalate
    ensures Execute(a, c, env, io) == Done(WithState(a, Finished), c, io)
  {
    assert Step(a, c, env, io) == Done(WithState(a, Finished), c, io);
  }

  /**
   * An escalated case run from Waiting: a reply that does not parse
   * panics; parsed actions are followed by exactly one decision, so the
   * trace grows by two; a failed actions request goes through Error to
   * Finished after one prompt.
   */
  lemma EscalateFromWaiting(a: AgentEscalation, c: SupportCase, env: Env, io: Io)
    requires a.common.state == Waiting && c.shouldEscalate
    ensures var p := PopulateResolvingActions(a, c, env, io); var r := Execute(a, c, env, io);
      && (p.Panicked? ==> r.Panicked?)
      && (p.Done? && p.agent.common.state == Working ==>
            && r == HandleEscalation(p.agent, p.supportCase, env, p.io)
            && |r.supportCase.trace| == |c.trace| + 2)
      && (p.Done? && p.agent.common.state == Error ==>
            && r == Done(WithState(p.agent, Finished), p.supportCase, p.io)
            && |r.supportCase.trace| == |c.trace| + 1)
  {
    var p := PopulateResolvingActions(a, c, env, io);
    ExecuteFromWaiting(a, c, env, io);
    if p.Done? {
      if p.agent.common.state == Working {
        ExecuteFromWorking(p.agent, p.supportCase, env, p.io);
      } else if p.agent.common.state == Error {
        ExecuteFromError(p.agent, p.supportCase, env, p.io);
      }
    }
  }
}
