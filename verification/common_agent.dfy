/** The state and bookkeeping every agent shares, and the shape of an agent run. */
module Agents {
  import opened Base
  import opened World
  import opened SupportCases

  /**
   * `AgentState`. `Testing` is not among the variants the shared enum
   * declares, but the backend developer's build phase uses it, so it is
   * part of this model. Equality is structural over the variants.
   */
  datatype AgentState = Waiting | Working | Testing | Error | Finished

  /** `CommonAgent`: display role, persona objective, current state and private memory. */
  datatype CommonAgent = CommonAgent(role: string, objective: string, state: AgentState, memory: seq<Message>)

  function GetMemory(a: CommonAgent): seq<Message> { a.memory }
  function GetObjective(a: CommonAgent): string { a.objective }
  function GetRole(a: CommonAgent): string { a.role }
  function GetState(a: CommonAgent): AgentState { a.state }

  /** `CommonAgent::new`: the given role and objective, Waiting, with empty memory. */
  function New(role: string, objective: string): (a: CommonAgent)
    ensures GetRole(a) == role && GetObjective(a) == objective
    ensures GetState(a) == Waiting && GetMemory(a) == []
  {
    CommonAgent(role, objective, Waiting, [])
  }

  /** `update_state`: the new state is observed; role, objective and memory stay as they were. */
  function UpdateState(a: CommonAgent, s: AgentState): (r: CommonAgent)
    ensures GetState(r) == s
    ensures GetRole(r) == GetRole(a) && GetObjective(r) == GetObjective(a) && GetMemory(r) == GetMemory(a)
  {
    a.(state := s)
  }

  /** Role, objective and memory are the same in both agents: only the state may differ. */
  predicate SameIdentity(a: CommonAgent, b: CommonAgent)
  {
    a.role == b.role && a.objective == b.objective && a.memory == b.memory
  }

  /**
   * Loop iterations left before an agent whose Waiting step does all its
   * work reaches Finished: Waiting steps once, then Finished is set.
   */
  function StepsLeft(s: AgentState): nat
  {
    match s
    case Finished => 0
    case Waiting => 2
    case _ => 1
  }

  /**
   * The result of `execute(&mut support_case)`: either the agent, the case
   * and the oracle consumption after the run, or a panic (an `unwrap`,
   * `expect` or `panic!` firing), which ends the whole program.
   */
  datatype Exec<A> = Done(agent: A, supportCase: SupportCase, io: Io) | Panicked(reason: string)

  /**
   * The case's fields no agent ever writes, and its trace only grows:
   * the shape of every agent's effect on the case.
   */
  predicate Grows(c: SupportCase, c': SupportCase)
  {
    && c'.caseId == c.caseId
    && c'.createdAt == c.createdAt
    && c'.supportContext == c.supportContext
    && c'.customerQuery == c.customerQuery
    && c.trace <= c'.trace
  }
}
