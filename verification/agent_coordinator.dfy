/**
 * The coordinator: owns the support case and the list of agents, and
 * handles a request by registering the standard agents and running every
 * registered agent once, in list order, on the same case.
 */
module Coordinator {
  import opened Base
  import opened World
  import opened SupportCases
  import opened Agents
  import Query
  import Sentiment
  import Escalation

  /**
   * An entry of the agent list. The list holds trait objects in the
   * source, but only `create_agents` ever adds to it, so its entries are
   * query, sentiment and escalation agents.
   */
  datatype Agent =
    | QueryAgent(query: Query.AgentCustomerQuery)
    | SentimentAgent(sentiment: Sentiment.AgentSentiment)
    | EscalationAgent(escalation: Escalation.AgentEscalation)

  /** The kind of an entry: 0 query, 1 sentiment, 2 escalation. */
  function Kind(x: Agent): nat
  {
    match x
    case QueryAgent(_) => 0
    case SentimentAgent(_) => 1
    case EscalationAgent(_) => 2
  }

  /** The kinds of a list of entries, in order. */
  function Kinds(xs: seq<Agent>): (ks: seq<nat>)
    ensures |ks| == |xs|
    decreases |xs|
  {
    if |xs| == 0 then [] else [Kind(xs[0])] + Kinds(xs[1..])
  }

  /** The kinds of a concatenation are the concatenated kinds. */
  lemma {:induction false} KindsAppend(xs: seq<Agent>, ys: seq<Agent>)
    ensures Kinds(xs + ys) == Kinds(xs) + Kinds(ys)
    decreases |xs|
  {
    if |xs| == 0 {
      assert xs + ys == ys;
    } else {
      assert (xs + ys)[0] == xs[0] && (xs + ys)[1..] == xs[1..] + ys;
      KindsAppend(xs[1..], ys);
      ConsAppend(Kind(xs[0]), Kinds(xs[1..]), Kinds(ys));
    }
  }

  /** Entry `i` of the kinds is the kind of entry `i`. */
  lemma {:induction false} KindsAt(xs: seq<Agent>, i: nat)
    requires i < |xs|
    ensures Kinds(xs)[i] == Kind(xs[i])
    decreases i
  {
    if i > 0 {
      KindsAt(xs[1..], i - 1);
    }
  }

  lemma ConsAppend<T>(x: T, xs: seq<T>, ys: seq<T>)
    ensures [x] + (xs + ys) == ([x] + xs) + ys
  {
  }

  lemma Triple<T>(x: T, y: T, z: T)
    ensures [x] + ([y] + [z]) == [x, y, z]
  {
  }

  /** `CoordinatorAgent`: its own agent record, the case it owns, and the registered agents. */
  datatype CoordinatorAgent = CoordinatorAgent(common: CommonAgent, supportCase: SupportCase, agents: seq<Agent>)

  const Role: string := "Support Coordinator"
  const Objective: string := "You are an agent coordinator."

  /** `CoordinatorAgent::new`: a fresh case for the context and query (its id and timestamps passed in), and no agents. */
  function New(context: string, query: string, id: CaseId, createdAt: Stamp, updatedAt: Stamp): (co: CoordinatorAgent)
    ensures co.supportCase == SupportCases.New(id, context, query, createdAt, updatedAt)
    ensures co.supportCase.supportContext == context && co.supportCase.customerQuery == query
    ensures co.common.role == Role && co.common.objective == Objective && co.common.state == Waiting
    ensures co.agents == []
  {
    CoordinatorAgent(Agents.New(Role, Objective), SupportCases.New(id, context, query, createdAt, updatedAt), [])
  }

  /** `add_agent`: the agent goes at the end; the entries before it and everything else stay. */
  function AddAgent(co: CoordinatorAgent, agent: Agent): (r: CoordinatorAgent)
    ensures |r.agents| == |co.agents| + 1
    ensures r.agents[..|co.agents|] == co.agents && r.agents[|co.agents|] == agent
    ensures r.(agents := co.agents) == co
  {
    co.(agents := co.agents + [agent])
  }

  /** The three agents every request registers, in the order they run. */
  function StandardAgents(): (agents: seq<Agent>)
    ensures Kinds(agents) == Round
  {
    [QueryAgent(Query.New()), SentimentAgent(Sentiment.New()), EscalationAgent(Escalation.New())]
  }

  /** Their kinds: query, sentiment, escalation. */
  const Round: seq<nat> := [0, 1, 2]

  /** `create_agents`: registers a fresh query, sentiment and escalation agent, in that order, after the existing ones. */
  function CreateAgents(co: CoordinatorAgent): (r: CoordinatorAgent)
    ensures |r.agents| == |co.agents| + 3
    ensures r.agents[..|co.agents|] == co.agents
    ensures r.agents[|co.agents|..] == StandardAgents()
    ensures Kinds(r.agents) == Kinds(co.agents) + Round
    ensures r.(agents := co.agents) == co
  {
    var r := AddAgent(AddAgent(AddAgent(co, QueryAgent(Query.New())), SentimentAgent(Sentiment.New())),
                      EscalationAgent(Escalation.New()));
    assert r.agents == co.agents + StandardAgents();
    KindsAppend(co.agents, StandardAgents());
    r
  }

  /** `execute` through the trait: dispatches on the kind of agent and keeps the kind. */
  function ExecuteAgent(agent: Agent, c: SupportCase, env: Env, io: Io): (r: Exec<Agent>)
    ensures r.Done? ==> Kind(r.agent) == Kind(agent) && Grows(c, r.supportCase)
    ensures agent.SentimentAgent? || (agent.QueryAgent? && agent.query.common.state == Waiting) ==> r.Done?
  {
    match agent
    case QueryAgent(q) =>
      (match Query.Execute(q, c, env, io)
       case Done(q', c', io') => Done(QueryAgent(q'), c', io')
       case Panicked(why) => Panicked(why))
    case SentimentAgent(s) =>
      var v := Sentiment.Execute(s, c, env, io);
      Done(SentimentAgent(v.agent), v.supportCase, v.io)
    case EscalationAgent(e) =>
      match Escalation.Execute(e, c, env, io)
      case Done(e', c', io') => Done(EscalationAgent(e'), c', io')
      case Panicked(why) => Panicked(why)
  }

  /**
   * The loop of `handle_support_request`: each agent runs once, in list
   * order, on the case the previous one left; the first panic ends
   * everything.
   */
  function RunAgents(agents: seq<Agent>, c: SupportCase, env: Env, io: Io): (r: Exec<seq<Agent>>)
    ensures r.Done? ==> Kinds(r.agent) == Kinds(agents) && Grows(c, r.supportCase)
    decreases |agents|
  {
    if |agents| == 0 then Done([], c, io)
    else
      match ExecuteAgent(agents[0], c, env, io)
      case Panicked(why) => Panicked(why)
      case Done(first, c1, io1) =>
        (match RunAgents(agents[1..], c1, env, io1)
         case Panicked(why) => Panicked(why)
         case Done(rest, c2, io2) =>
           assert ([first] + rest)[0] == first && ([first] + rest)[1..] == rest;
           Done([first] + rest, c2, io2))
  }

  /** Running a concatenation of agent lists runs the first list, then the second on the case the first left. */
  lemma {:induction false} RunAgentsAppend(xs: seq<Agent>, ys: seq<Agent>, c: SupportCase, env: Env, io: Io)
    ensures RunAgents(xs + ys, c, env, io) ==
      match RunAgents(xs, c, env, io)
      case Panicked(why) => Panicked(why)
      case Done(xs', c1, io1) =>
        (match RunAgents(ys, c1, env, io1)
         case Panicked(why) => Panicked(why)
         case Done(ys', c2, io2) => Done(xs' + ys', c2, io2))
    decreases |xs|
  {
    if |xs| == 0 {
      assert xs + ys == ys;
      match RunAgents(ys, c, env, io)
      case Panicked(_) =>
      case Done(ys', _, _) => assert [] + ys' == ys';
    } else {
      assert (xs + ys)[0] == xs[0] && (xs + ys)[1..] == xs[1..] + ys;
      match ExecuteAgent(xs[0], c, env, io)
      case Panicked(_) =>
      case Done(first, c1, io1) =>
        RunAgentsAppend(xs[1..], ys, c1, env, io1);
        match RunAgents(xs[1..], c1, env, io1)
        case Panicked(_) =>
        case Done(rest, c2, io2) =>
          match RunAgents(ys, c2, env, io2)
          case Panicked(_) =>
          case Done(ys', _, _) => ConsAppend(first, rest, ys');
    }
  }

  /** How a request ends: the coordinator and the oracle consumption after it, or a panic. */
  datatype Handled = Handled(coordinator: CoordinatorAgent, io: Io) | Aborted(reason: string)

  /**
   * `handle_support_request`: registers the standard agents, then runs
   * the whole list. The coordinator's own record and the case's identity
   * are kept, the trace only grows, and every entry keeps its kind.
   */
  function HandleSupportRequest(co: CoordinatorAgent, env: Env, io: Io): (r: Handled)
    ensures r.Handled? ==>
      && r.coordinator.common == co.common
      && Kinds(r.coordinator.agents) == Kinds(co.agents) + Round
      && Grows(co.supportCase, r.coordinator.supportCase)
  {
    var co1 := CreateAgents(co);
    match RunAgents(co1.agents, co1.supportCase, env, io)
    case Panicked(why) => Aborted(why)
    case Done(agents, c, io1) => Handled(co1.(supportCase := c, agents := agents), io1)
  }

  /**
   * Every request runs the agents registered by earlier requests again,
   * in order, and then the three it registers, on the case they left.
   */
  lemma RequestRerunsRegistered(co: CoordinatorAgent, env: Env, io: Io)
    ensures HandleSupportRequest(co, env, io) ==
      match RunAgents(co.agents, co.supportCase, env, io)
      case Panicked(why) => Aborted(why)
      case Done(earlier, c1, io1) =>
        (match RunAgents(StandardAgents(), c1, env, io1)
         case Panicked(why) => Aborted(why)
         case Done(added, c2, io2) => Handled(co.(supportCase := c2, agents := earlier + added), io2))
  {
    assert CreateAgents(co).agents == co.agents + StandardAgents();
    RunAgentsAppend(co.agents, StandardAgents(), co.supportCase, env, io);
  }

  /** Running a one-agent list runs that agent. */
  lemma RunOne(x: Agent, c: SupportCase, env: Env, io: Io)
    ensures RunAgents([x], c, env, io) ==
      match ExecuteAgent(x, c, env, io)
      case Panicked(why) => Panicked(why)
      case Done(x', c1, io1) => Done([x'], c1, io1)
  {
    assert [x][0] == x && [x][1..] == [];
    match ExecuteAgent(x, c, env, io)
    case Panicked(_) =>
    case Done(x', c1, io1) =>
      assert RunAgents([], c1, env, io1) == Done([], c1, io1);
      assert [x'] + [] == [x'];
  }

  /** Running three agents runs each in turn on the case the previous one left. */
  lemma RunThree(x: Agent, y: Agent, z: Agent, c: SupportCase, env: Env, io: Io)
    ensures RunAgents([x, y, z], c, env, io) ==
      match ExecuteAgent(x, c, env, io)
      case Panicked(why) => Panicked(why)
      case Done(x', c1, io1) =>
        (match ExecuteAgent(y, c1, env, io1)
         case Panicked(why) => Panicked(why)
         case Done(y', c2, io2) =>
           (match ExecuteAgent(z, c2, env, io2)
            case Panicked(why) => Panicked(why)
            case Done(z', c3, io3) => Done([x', y', z'], c3, io3)))
  {
    assert [x, y, z] == [x] + ([y] + [z]);
    RunAgentsAppend([x], [y] + [z], c, env, io);
    RunOne(x, c, env, io);
    match ExecuteAgent(x, c, env, io)
    case Panicked(_) =>
    case Done(x', c1, io1) =>
      RunAgentsAppend([y], [z], c1, env, io1);
      RunOne(y, c1, env, io1);
      match ExecuteAgent(y, c1, env, io1)
      case Panicked(_) =>
      case Done(y', c2, io2) =>
        RunOne(z, c2, env, io2);
        match ExecuteAgent(z, c2, env, io2)
        case Panicked(_) =>
        case Done(z', _, _) => Triple(x', y', z');
  }

  /** A waiting query agent never panics. */
  lemma ExecuteQueryAgent(a: Query.AgentCustomerQuery, c: SupportCase, env: Env, io: Io)
    requires a.common.state == Waiting
    ensures var q := Query.Execute(a, c, env, io);
      q.Done? && ExecuteAgent(QueryAgent(a), c, env, io) == Done(QueryAgent(q.agent), q.supportCase, q.io)
  {
  }

  /** The sentiment agent never panics. */
  lemma ExecuteSentimentAgent(a: Sentiment.AgentSentiment, c: SupportCase, env: Env, io: Io)
    ensures var s := Sentiment.Execute(a, c, env, io);
      ExecuteAgent(SentimentAgent(a), c, env, io) == Done(SentimentAgent(s.agent), s.supportCase, s.io)
  {
  }

  /** An escalation entry runs its agent and passes a panic on. */
  lemma ExecuteEscalationAgent(a: Escalation.AgentEscalation, c: SupportCase, env: Env, io: Io)
    ensures var e := Escalation.Execute(a, c, env, io);
      ExecuteAgent(EscalationAgent(a), c, env, io) ==
        if e.Panicked? then Panicked(e.reason) else Done(EscalationAgent(e.agent), e.supportCase, e.io)
  {
  }

  /** Three entries of which the first two do not panic: only the third can end the run early. */
  lemma RunThreeLastMayPanic(x: Agent, y: Agent, z: Agent, c: SupportCase, env: Env, io: Io)
    requires ExecuteAgent(x, c, env, io).Done?
    requires var x' := ExecuteAgent(x, c, env, io); ExecuteAgent(y, x'.supportCase, env, x'.io).Done?
    ensures
      var x' := ExecuteAgent(x, c, env, io);
      var y' := ExecuteAgent(y, x'.supportCase, env, x'.io);
      var z' := ExecuteAgent(z, y'.supportCase, env, y'.io);
      RunAgents([x, y, z], c, env, io) ==
        if z'.Panicked? then Panicked(z'.reason) else Done([x'.agent, y'.agent, z'.agent], z'.supportCase, z'.io)
  {
    RunThree(x, y, z, c, env, io);
  }

  /** A request to a coordinator with no agents runs exactly the standard three. */
  lemma FirstRequestRunsStandard(co: CoordinatorAgent, env: Env, io: Io)
    requires co.agents == []
    ensures HandleSupportRequest(co, env, io) ==
      match RunAgents(StandardAgents(), co.supportCase, env, io)
      case Panicked(why) => Aborted(why)
      case Done(agents, c, io1) => Handled(co.(supportCase := c, agents := agents), io1)
  {
    assert CreateAgents(co).agents == StandardAgents();
  }

  /**
   * A request to a coordinator with no agents yet runs the query,
   * sentiment and escalation agents, once each, in that order, on the same
   * case. Neither of the first two can panic here.
   */
  lemma FirstRequestPipeline(co: CoordinatorAgent, env: Env, io: Io)
    requires co.agents == []
    ensures
      var q := Query.Execute(Query.New(), co.supportCase, env, io);
      var s := Sentiment.Execute(Sentiment.New(), q.supportCase, env, q.io);
      var e := Escalation.Execute(Escalation.New(), s.supportCase, env, s.io);
      HandleSupportRequest(co, env, io) ==
        if e.Panicked? then Aborted(e.reason)
        else Handled(co.(supportCase := e.supportCase,
                         agents := [QueryAgent(q.agent), SentimentAgent(s.agent), EscalationAgent(e.agent)]), e.io)
  {
    var c := co.supportCase;
    var q := Query.Execute(Query.New(), c, env, io);
    var s := Sentiment.Execute(Sentiment.New(), q.supportCase, env, q.io);
    ExecuteQueryAgent(Query.New(), c, env, io);
    ExecuteSentimentAgent(Sentiment.New(), q.supportCase, env, q.io);
    ExecuteEscalationAgent(Escalation.New(), s.supportCase, env, s.io);
    RunThreeLastMayPanic(QueryAgent(Query.New()), SentimentAgent(Sentiment.New()), EscalationAgent(Escalation.New()),
                         c, env, io);
    FirstRequestRunsStandard(co, env, io);
  }

  /** `k` rounds of query, sentiment and escalation kinds. */
  function Rounds(k: nat): (ks: seq<nat>)
    ensures |ks| == 3 * k
  {
    if k == 0 then [] else Round + Rounds(k - 1)
  }

  /** The rounds repeat with period three: entry `i` is kind `i % 3`. */
  lemma {:induction false} RoundsAt(k: nat, i: nat)
    requires i < 3 * k
    ensures Rounds(k)[i] == i % 3
    decreases k
  {
    assert Rounds(k) == Round + Rounds(k - 1);
    if i < 3 {
      assert Rounds(k)[i] == Round[i];
    } else {
      RoundsAt(k - 1, i - 3);
      assert Rounds(k)[i] == Rounds(k - 1)[i - 3];
      assert (i - 3) % 3 == i % 3;
    }
  }

  lemma AppendRounds(ks: seq<nat>, k: nat)
    ensures k == 0 ==> ks + Rounds(k) == ks
    ensures k > 0 ==> (ks + Round) + Rounds(k - 1) == ks + Rounds(k)
  {
  }

  /** `k` successive requests to the same coordinator, stopping at the first panic; each appends one round of agents. */
  function Requests(co: CoordinatorAgent, k: nat, env: Env, io: Io): (r: Handled)
    ensures r.Handled? ==> Kinds(r.coordinator.agents) == Kinds(co.agents) + Rounds(k)
    ensures r.Handled? ==> Grows(co.supportCase, r.coordinator.supportCase)
    decreases k
  {
    if k == 0 then
      AppendRounds(Kinds(co.agents), 0);
      Handled(co, io)
    else
      match HandleSupportRequest(co, env, io)
      case Aborted(why) => Aborted(why)
      case Handled(co1, io1) =>
        AppendRounds(Kinds(co.agents), k);
        Requests(co1, k - 1, env, io1)
  }

  /**
   * After `k` requests to a new coordinator its list holds `3k` agents,
   * cycling query, sentiment, escalation: the list is never reset.
   */
  lemma AgentsAfterRequests(context: string, query: string, id: CaseId, createdAt: Stamp, updatedAt: Stamp,
                            k: nat, env: Env, io: Io, i: nat)
    requires i < 3 * k
    ensures var r := Requests(New(context, query, id, createdAt, updatedAt), k, env, io);
      r.Handled? ==> |r.coordinator.agents| == 3 * k && Kind(r.coordinator.agents[i]) == i % 3
  {
    var r := Requests(New(context, query, id, createdAt, updatedAt), k, env, io);
    if r.Handled? {
      assert [] + Rounds(k) == Rounds(k);
      KindsAt(r.coordinator.agents, i);
      RoundsAt(k, i);
    }
  }
}
