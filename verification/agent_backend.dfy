/**
 * The backend developer: generates web-server code with the language
 * model, has it built, feeds build errors back for fixing, and once a build
 * succeeds extracts the endpoint schema and probes the static GET
 * endpoints of the running server.
 *
 * The build tool, the user's safety confirmation, the JSON decoder for the
 * schema, the server process and the HTTP probe are scripted oracles
 * (`Bench`); what the agent asked for and what it observed is recorded in
 * `Effects`. The support case is only read: every operation here takes it
 * as an input and none returns one.
 */
module Backend {
  import opened Base
  import opened World
  import opened Request
  import opened SupportCases
  import opened Agents
  import opened Routes

  /** Rust's `u8`, the width of `bug_count`. */
  type U8 = x: int | 0 <= x < 256

  /** `AgentBackendDeveloper`: the shared agent state, the last build's error text and the number of failed builds in a row. */
  datatype AgentBackendDeveloper = AgentBackendDeveloper(common: CommonAgent, bugErrors: Option<string>, bugCount: U8)

  const Role: string := "Backend Engineer"
  const Objective: string := "Develops backend code for webserver and JSON database."
  /** Stand for the four instruction texts, whose wording the model does not depend on. */
  const GeneratePrompt: string := "PROMPT_GENERATE_BACKEND"
  const ImprovePrompt: string := "PROMPT_IMPROVE_CODE"
  const FixPrompt: string := "PROMPT_FIX_CODE"
  const ExtractPrompt: string := "PROMPT_EXTRACT_API"
  /** Where the generated server listens. */
  const ServerUrl: string := "http://localhost:8080"
  /** The largest number of failed builds in a row after which the agent still tries again. */
  const MaxBugs: nat := 2

  /** `AgentBackendDeveloper::new`. */
  function New(): (a: AgentBackendDeveloper)
    ensures a.common == Agents.New(Role, Objective)
    ensures a.common.state == Waiting && a.bugErrors == None && a.bugCount == 0
  {
    AgentBackendDeveloper(Agents.New(Role, Objective), None, 0)
  }

  function WithState(a: AgentBackendDeveloper, s: AgentState): AgentBackendDeveloper
  {
    a.(common := UpdateState(a.common, s))
  }

  // ---------------------------------------------------------------------
  // What is asked of the language model
  // ---------------------------------------------------------------------

  /** The four requests the agent makes. */
  datatype Ask =
    | Generate                                      // first version of the server from the template
    | Improve                                       // second pass over the template, when the last build did not fail
    | FixBugs(code: string, errors: Option<string>) // the saved code and the last build's errors
    | ExtractApi(code: string)                      // the endpoint schema of the saved code

  /** `format!("{:?}", o)` for an `Option<String>`. */
  function DebugOption(o: Option<string>): string
  {
    match o
    case None => "None"
    case Some(s) => "Some(" + Debug(s) + ")"
  }

  /** Reads back the `{:?}` rendering of an `Option<String>`. */
  function ReadDebugOption(s: string): Option<Option<string>>
  {
    if s == "None" then Some(None)
    else if "Some(\"" <= s then
      match ReadQuotedBody(s[6..])
      case Some(f) => if f.rest == ")" then Some(Some(f.text)) else None
      case None => None
    else None
  }

  /** The rendering of a build's error text loses nothing: it reads back as the same option. */
  lemma DebugOptionRoundTrip(o: Option<string>)
    ensures ReadDebugOption(DebugOption(o)) == Some(o)
  {
    if o.Some? {
      var body := Escape(o.value) + "\"" + ")";
      var s := DebugOption(o);
      assert s == "Some(\"" + body;
      assert s[0] == 'S' && s[6..] == body;
      ReadQuotedBodyEscape(o.value, ")");
    }
  }

  /** The instruction constant a request is built around. */
  function Instruction(ask: Ask): string
  {
    match ask
    case Generate => GeneratePrompt
    case Improve => ImprovePrompt
    case FixBugs(_, _) => FixPrompt
    case ExtractApi(_) => ExtractPrompt
  }

  /**
   * The query text of each request, as the agent formats it: it opens with
   * the request's instruction.
   */
  function AskText(ask: Ask, template: string, actions: seq<string>): (t: string)
    ensures Instruction(ask) <= t
  {
    match ask
    case Generate =>
      GeneratePrompt + " CODE_TEMPLATE: " + template + " \n ACTIONS_DESCRIPTION: " + Join(actions, ",") + " \n"
    case Improve =>
      ImprovePrompt + " CODE_TEMPLATE: " + template + " \n ACTIONS_DESCRIPTION: " + Join(actions, ",") + " \n"
    case FixBugs(code, errors) =>
      FixPrompt + " BACKEND_CODE: " + Debug(code) + " \n ERROR_BUGS: " + DebugOption(errors)
      + " \n THIS FUNCTION ONLY OUTPUTS CODE. JUST OUTPUT THE CODE."
    case ExtractApi(code) =>
      ExtractPrompt + " CODE INPUT: " + code
  }

  /** The system prompt of a request: the agent's objective, the case context and the request text. */
  function AskMessage(a: AgentBackendDeveloper, c: SupportCase, template: string, ask: Ask): Message
  {
    PrepareMessage(a.common.objective, c.supportContext, AskText(ask, template, c.supportedActions))
  }

  /**
   * Every request is one system prompt that reads back as the agent's
   * objective, the case's context and a query opening with the request's
   * instruction.
   */
  lemma AskMessageReadsBack(a: AgentBackendDeveloper, c: SupportCase, template: string, ask: Ask)
    ensures AskMessage(a, c, template, ask).role == "system"
    ensures var t := AskText(ask, template, c.supportedActions);
      && ParsePrompt(AskMessage(a, c, template, ask).content) == Some(Prompt(a.common.objective, c.supportContext, t))
      && Instruction(ask) <= t
  {
    PromptRoundTrip(a.common.objective, c.supportContext, AskText(ask, template, c.supportedActions));
  }

  // ---------------------------------------------------------------------
  // The workbench: oracles and recorded effects
  // ---------------------------------------------------------------------

  /** What `cargo build` yields: success, failure with its standard error, or no process at all. */
  datatype BuildResult = Built | BuildFailed(stderr: string) | CannotBuild

  /** What a GET request yields: a status code or a transport error. */
  datatype ProbeReply = Status(code: nat) | Transport(error: string)

  /** One probe of the sweep: the URL called and what came back. */
  datatype ProbeEvent = ProbeEvent(url: string, reply: ProbeReply)

  /**
   * The scripted oracles of the build-and-verify loop.
   * - `codeTemplate`: the contents of the code template file;
   * - `confirm(n)`: the user's answer to the n-th safety question;
   * - `build(n)`: the outcome of the n-th `cargo build`;
   * - `parseRoutes(s)`: `serde_json::from_str::<Vec<Route>>(s)`, None when it fails;
   * - `serverStarts`: whether `cargo run` can be spawned;
   * - `probe(n)`: the reply to the n-th endpoint probe.
   */
  datatype Bench = Bench(
    codeTemplate: string,
    confirm: nat -> bool,
    build: nat -> BuildResult,
    parseRoutes: string -> Option<seq<Route>>,
    serverStarts: bool,
    probe: nat -> ProbeReply)

  /**
   * What the loop has done so far: the gateway consumption, the requests
   * made (one entry per request, whatever the retries), the contents of
   * the executable main file and of the saved schema, how many questions
   * were asked and builds started, every probe, and how many kills were
   * requested of the server process.
   */
  datatype Effects = Effects(
    io: Io,
    asks: seq<Ask>,
    code: string,
    schema: Option<string>,
    confirms: nat,
    builds: nat,
    probes: seq<ProbeEvent>,
    kills: nat)

  /**
   * Requests, gateway calls, questions and builds only accumulate, and the
   * gateway is called at most twice per request.
   */
  predicate Advances(fx: Effects, fx': Effects)
  {
    && fx.asks <= fx'.asks
    && fx.io.sent <= fx'.io.sent
    && |fx'.io.sent| - |fx.io.sent| <= 2 * (|fx'.asks| - |fx.asks|)
    && fx.confirms <= fx'.confirms
    && fx.builds <= fx'.builds
  }

  /** The answer to a request: its text, or none after both gateway attempts failed. */
  datatype Answered = Answered(text: string, fx: Effects) | NoAnswer(fx: Effects)

  /**
   * Sends one request through `ai_request` and records it. The source
   * unwraps the result with `expect`, so a `NoAnswer` ends the run.
   */
  function Consult(a: AgentBackendDeveloper, c: SupportCase, bench: Bench, env: Env, fx: Effects, ask: Ask): (r: Answered)
    ensures r.fx.asks == fx.asks + [ask]
    ensures var ans := AiRequest(env, fx.io, AskMessage(a, c, bench.codeTemplate, ask));
      && r.fx.io == ans.io
      && (r.Answered? <==> ans.reply.Ok?)
      && (r.Answered? ==> r.text == ans.reply.text)
    ensures r.fx.(io := fx.io, asks := fx.asks) == fx
    ensures Advances(fx, r.fx)
  {
    var ans := AiRequest(env, fx.io, AskMessage(a, c, bench.codeTemplate, ask));
    var fx1 := fx.(io := ans.io, asks := fx.asks + [ask]);
    match ans.reply
    case Ok(text) => Answered(text, fx1)
    case Err(_) => NoAnswer(fx1)
  }

  // ---------------------------------------------------------------------
  // The probe sweep
  // ---------------------------------------------------------------------

  /**
   * Probes every selected endpoint once, in order, starting with the
   * k-th probe reply. Neither a bad status nor a transport error stops
   * the sweep.
   */
  function Sweep(checks: seq<Route>, probe: nat -> ProbeReply, k: nat): (events: seq<ProbeEvent>)
    ensures |events| == |checks|
    ensures forall i {:trigger events[i]} :: 0 <= i < |checks| ==> events[i] == ProbeEvent(ServerUrl + checks[i].route, probe(k + i))
    decreases |checks|
  {
    if |checks| == 0 then []
    else [ProbeEvent(ServerUrl + checks[0].route, probe(k))] + Sweep(checks[1..], probe, k + 1)
  }

  /** The probes that failed in transport: each one requests a kill of the server. */
  function TransportFailures(events: seq<ProbeEvent>): (n: nat)
    ensures n <= |events|
    decreases |events|
  {
    if |events| == 0 then 0
    else (if events[0].reply.Transport? then 1 else 0) + TransportFailures(events[1..])
  }

  /** No kill is requested during a sweep exactly when every probe got a status back. */
  lemma {:induction false} NoTransportFailures(events: seq<ProbeEvent>)
    ensures TransportFailures(events) == 0 <==> forall i :: 0 <= i < |events| ==> events[i].reply.Status?
    decreases |events|
  {
    if |events| > 0 {
      NoTransportFailures(events[1..]);
      assert forall i :: 1 <= i < |events| ==> events[i] == events[1..][i - 1];
    }
  }

  // ---------------------------------------------------------------------
  // One iteration of the loop, per state
  // ---------------------------------------------------------------------

  /** Why a run stops before Finished: each is a panic, `expect` or `unwrap` in the source. */
  datatype Halt =
    | NoAiResponse         // "should have returned ai response"
    | NotConfirmed         // the user declined to run the generated code
    | BuildCommandFailed   // "Failed to build backend application"
    | BugCountOverflow     // `bug_count += 1` when bug_count is 255
    | TooManyBugs          // "Error: Too many bugs"
    | BadApiSchema         // "Failed to decode API Endpoints."
    | ServerNotRun         // "Failed to run backend application"

  /** What one iteration leads to: the next loop head, or a halt. */
  datatype Next = Continue(agent: AgentBackendDeveloper, fx: Effects) | Stop(reason: Halt, fx: Effects)

  /** Waiting: the first version of the code, saved as the executable main file; then Working. */
  function GenerateStep(a: AgentBackendDeveloper, c: SupportCase, bench: Bench, env: Env, fx: Effects): (r: Next)
    ensures r.fx.asks == fx.asks + [Generate]
    ensures r.Stop? ==> r.reason == NoAiResponse
    ensures r.Continue? ==> r.agent == WithState(a, Working)
    ensures r.Continue? <==> Consult(a, c, bench, env, fx, Generate).Answered?
    ensures r.Continue? ==> r.fx.code == Consult(a, c, bench, env, fx, Generate).text
    ensures r.fx.(io := fx.io, asks := fx.asks, code := fx.code) == fx
  {
    var ans := Consult(a, c, bench, env, fx, Generate);
    if ans.NoAnswer? then Stop(NoAiResponse, ans.fx)
    else Continue(WithState(a, Working), ans.fx.(code := ans.text))
  }

  /** The request Working makes: improve after a good (or no) build, otherwise fix the saved code with the last errors. */
  function DevelopAsk(a: AgentBackendDeveloper, fx: Effects): (ask: Ask)
    ensures ask == Improve <==> a.bugCount == 0
    ensures ask != Improve ==> ask == FixBugs(fx.code, a.bugErrors)
  {
    if a.bugCount == 0 then Improve else FixBugs(fx.code, a.bugErrors)
  }

  /** Working: new code from the model, saved as the executable main file; then Testing. */
  function DevelopStep(a: AgentBackendDeveloper, c: SupportCase, bench: Bench, env: Env, fx: Effects): (r: Next)
    ensures r.fx.asks == fx.asks + [DevelopAsk(a, fx)]
    ensures r.Stop? ==> r.reason == NoAiResponse
    ensures r.Continue? ==> r.agent == WithState(a, Testing)
    ensures r.Continue? <==> Consult(a, c, bench, env, fx, DevelopAsk(a, fx)).Answered?
    ensures r.Continue? ==> r.fx.code == Consult(a, c, bench, env, fx, DevelopAsk(a, fx)).text
    ensures r.fx.(io := fx.io, asks := fx.asks, code := fx.code) == fx
  {
    var ans := Consult(a, c, bench, env, fx, DevelopAsk(a, fx));
    if ans.NoAnswer? then Stop(NoAiResponse, ans.fx)
    else Continue(WithState(a, Testing), ans.fx.(code := ans.text))
  }

  /**
   * After a successful build: extract the endpoint schema of the saved
   * code and save it, decode it, start the server, probe the static GET
   * endpoints, kill the server; then Finished, whatever the probes said.
   */
  function DeployStep(a: AgentBackendDeveloper, c: SupportCase, bench: Bench, env: Env, fx: Effects): (r: Next)
    ensures r.fx.asks == fx.asks + [ExtractApi(fx.code)]
    ensures r.Continue? ==>
      && r.agent == WithState(a, Finished)
      && r.fx.schema.Some?
      && bench.parseRoutes(r.fx.schema.value).Some?
      && var events := Sweep(StaticGets(bench.parseRoutes(r.fx.schema.value).value), bench.probe, |fx.probes|);
         r.fx.probes == fx.probes + events && r.fx.kills == fx.kills + TransportFailures(events) + 1
    ensures var ans := Consult(a, c, bench, env, fx, ExtractApi(fx.code));
      && (ans.Answered? ==> r.fx.schema == Some(ans.text))
      && (r.Continue? <==> ans.Answered? && bench.parseRoutes(ans.text).Some? && bench.serverStarts)
      && (ans.NoAnswer? ==> r == Stop(NoAiResponse, ans.fx))
      && (ans.Answered? && bench.parseRoutes(ans.text).None? ==> r.Stop? && r.reason == BadApiSchema)
      && (ans.Answered? && bench.parseRoutes(ans.text).Some? && !bench.serverStarts ==> r.Stop? && r.reason == ServerNotRun)
    ensures r.Stop? ==> r.reason in {NoAiResponse, BadApiSchema, ServerNotRun}
    ensures r.Stop? ==> r.fx.probes == fx.probes && r.fx.kills == fx.kills
    ensures r.fx.(io := fx.io, asks := fx.asks, schema := fx.schema, probes := fx.probes, kills := fx.kills) == fx
    ensures Advances(fx, r.fx)
  {
    var ans := Consult(a, c, bench, env, fx, ExtractApi(fx.code));
    if ans.NoAnswer? then Stop(NoAiResponse, ans.fx)
    else
      var fx1 := ans.fx.(schema := Some(ans.text));
      match bench.parseRoutes(ans.text)
      case None => Stop(BadApiSchema, fx1)
      case Some(routes) =>
        if !bench.serverStarts then Stop(ServerNotRun, fx1)
        else
          var events := Sweep(StaticGets(routes), bench.probe, |fx1.probes|);
          Continue(WithState(a, Finished), fx1.(probes := fx1.probes + events, kills := fx1.kills + TransportFailures(events) + 1))
  }

  /**
   * Testing: ask the user; build; on success reset the bug record and
   * deploy, on failure record the errors and go back to Working unless
   * this was one failure too many.
   */
  function TestStep(a: AgentBackendDeveloper, c: SupportCase, bench: Bench, env: Env, fx: Effects): (r: Next)
    ensures r.fx.confirms == fx.confirms + 1
    ensures !bench.confirm(fx.confirms) ==> r == Stop(NotConfirmed, fx.(confirms := fx.confirms + 1))
    ensures bench.confirm(fx.confirms) ==> r.fx.builds == fx.builds + 1
    ensures bench.confirm(fx.confirms) && bench.build(fx.builds).CannotBuild? ==> r.Stop? && r.reason == BuildCommandFailed
    ensures bench.confirm(fx.confirms) && bench.build(fx.builds).BuildFailed? ==>
      && r.fx == fx.(confirms := fx.confirms + 1, builds := fx.builds + 1)
      && (a.bugCount >= MaxBugs ==> r.Stop? && r.reason in {TooManyBugs, BugCountOverflow})
      && (a.bugCount < MaxBugs ==>
            r == Continue(WithState(a.(bugErrors := Some(bench.build(fx.builds).stderr), bugCount := a.bugCount + 1), Working), r.fx))
    ensures bench.confirm(fx.confirms) && bench.build(fx.builds).Built? ==>
      r == DeployStep(a.(bugErrors := None, bugCount := 0), c, bench, env,
                      fx.(confirms := fx.confirms + 1, builds := fx.builds + 1))
  {
    var fx1 := fx.(confirms := fx.confirms + 1);
    if !bench.confirm(fx.confirms) then Stop(NotConfirmed, fx1)
    else
      var fx2 := fx1.(builds := fx1.builds + 1);
      match bench.build(fx.builds)
      case CannotBuild => Stop(BuildCommandFailed, fx2)
      case BuildFailed(stderr) =>
        if a.bugCount == 255 then Stop(BugCountOverflow, fx2)
        else
          var a1 := a.(bugErrors := Some(stderr), bugCount := a.bugCount + 1);
          if a1.bugCount > MaxBugs then Stop(TooManyBugs, fx2)
          else Continue(WithState(a1, Working), fx2)
      case Built =>
        DeployStep(a.(bugErrors := None, bugCount := 0), c, bench, env, fx2)
  }

  /** One iteration of the loop in `execute`, for a state the loop makes progress from. */
  function Step(a: AgentBackendDeveloper, c: SupportCase, bench: Bench, env: Env, fx: Effects): Next
    requires Active(a.common.state)
  {
    match a.common.state
    case Waiting => GenerateStep(a, c, bench, env, fx)
    case Working => DevelopStep(a, c, bench, env, fx)
    case Testing => TestStep(a, c, bench, env, fx)
  }

  // ---------------------------------------------------------------------
  // The whole loop
  // ---------------------------------------------------------------------

  /** How a run of `execute` ends. */
  datatype Outcome =
    | Returned(agent: AgentBackendDeveloper, fx: Effects)  // the loop reached Finished
    | Halted(reason: Halt, fx: Effects)                    // the program panicked
    | Spins(agent: AgentBackendDeveloper, fx: Effects)     // the loop never ends: its catch-all arm changes nothing

  /** The states the loop makes progress from; Finished ends it and Error is never left. */
  predicate Active(s: AgentState)
  {
    s == Waiting || s == Working || s == Testing
  }

  /** The requests still due before the next build: generation and improvement, or only the latter, or none. */
  function Pending(s: AgentState): nat
  {
    match s
    case Waiting => 2
    case Working => 1
    case _ => 0
  }

  /** The most builds a run can still start: up to three failures in a row are tolerated in all. */
  function BuildsLeft(a: AgentBackendDeveloper): nat
  {
    if !Active(a.common.state) then 0
    else if a.bugCount <= MaxBugs then MaxBugs + 1 - a.bugCount
    else 1
  }

  /** The most requests a run can still make: those due before the next build, then one per build. */
  function AsksLeft(a: AgentBackendDeveloper): nat
  {
    if !Active(a.common.state) then 0 else BuildsLeft(a) + Pending(a.common.state)
  }

  /**
   * The loop's variant: builds still allowed, then the position in
   * Waiting → Working → Testing.
   */
  function Measure(a: AgentBackendDeveloper): nat
  {
    if !Active(a.common.state) then 0 else 3 * BuildsLeft(a) + Pending(a.common.state)
  }

  /** What a run that reached Finished from a working state has done last: a good build, the schema, and the sweep over the static GET endpoints. */
  predicate Deployed(a': AgentBackendDeveloper, bench: Bench, fx: Effects, fx': Effects)
  {
    && a'.bugCount == 0 && a'.bugErrors == None
    && fx.builds < fx'.builds && bench.build(fx'.builds - 1).Built?
    && fx'.schema.Some? && bench.parseRoutes(fx'.schema.value).Some?
    && var events := Sweep(StaticGets(bench.parseRoutes(fx'.schema.value).value), bench.probe, |fx.probes|);
       fx'.probes == fx.probes + events && fx'.kills == fx.kills + TransportFailures(events) + 1
  }

  /**
   * What one iteration guarantees: effects only accumulate; a halt
   * happens before any probe and within the budgets; a continuation
   * lowers the variant, never enters Error, keeps the agent's identity and
   * spends no more than its share of the budgets; an iteration that does
   * not finish probes nothing and, if it built, built unsuccessfully; the
   * iteration that finishes deploys.
   */
  predicate Progress(a: AgentBackendDeveloper, bench: Bench, fx: Effects, n: Next)
  {
    && Advances(fx, n.fx)
    && (n.Stop? ==>
          && n.fx.probes == fx.probes && n.fx.kills == fx.kills
          && |n.fx.asks| <= |fx.asks| + AsksLeft(a) && n.fx.builds <= fx.builds + BuildsLeft(a))
    && (n.Continue? ==>
          && Measure(n.agent) < Measure(a)
          && n.agent.common.state != Error
          && SameIdentity(n.agent.common, a.common)
          && |n.fx.asks| + AsksLeft(n.agent) <= |fx.asks| + AsksLeft(a)
          && n.fx.builds + BuildsLeft(n.agent) <= fx.builds + BuildsLeft(a))
    && (n.Continue? && n.agent.common.state != Finished ==>
          && n.fx.probes == fx.probes && n.fx.kills == fx.kills
          && (n.fx.builds == fx.builds || (n.fx.builds == fx.builds + 1 && bench.build(fx.builds).BuildFailed?)))
    && (n.Continue? && n.agent.common.state == Finished ==>
          n.fx.builds == fx.builds + 1 && Deployed(n.agent, bench, fx, n.fx))
  }

  lemma GenerateProgress(a: AgentBackendDeveloper, c: SupportCase, bench: Bench, env: Env, fx: Effects)
    requires a.common.state == Waiting
    ensures Progress(a, bench, fx, GenerateStep(a, c, bench, env, fx))
  {
  }

  lemma DevelopProgress(a: AgentBackendDeveloper, c: SupportCase, bench: Bench, env: Env, fx: Effects)
    requires a.common.state == Working
    ensures Progress(a, bench, fx, DevelopStep(a, c, bench, env, fx))
  {
  }

  /** A failed build either sends the agent back to Working with the errors recorded, or halts. */
  lemma FailedBuildProgress(a: AgentBackendDeveloper, c: SupportCase, bench: Bench, env: Env, fx: Effects)
    requires a.common.state == Testing
    requires bench.confirm(fx.confirms) && bench.build(fx.builds).BuildFailed?
    ensures Progress(a, bench, fx, TestStep(a, c, bench, env, fx))
  {
    var n := TestStep(a, c, bench, env, fx);
    assert n.fx == fx.(confirms := fx.confirms + 1, builds := fx.builds + 1);
    if n.Continue? {
      assert a.bugCount < MaxBugs && n.agent.bugCount == a.bugCount + 1 && n.agent.common.state == Working;
    }
  }

  /** The bookkeeping of a good build followed by a finished deployment, apart from both steps' bodies. */
  lemma DeployedAfterGoodBuild(a: AgentBackendDeveloper, bench: Bench, fx: Effects, fx2: Effects, d: Next)
    requires a.common.state == Testing
    requires bench.build(fx.builds).Built?
    requires fx2 == fx.(confirms := fx.confirms + 1, builds := fx.builds + 1)
    requires d.Continue? && d.fx.asks == fx2.asks + [ExtractApi(fx2.code)] && Advances(fx2, d.fx)
    requires d.fx.builds == fx2.builds
    requires d.agent == WithState(a.(bugErrors := None, bugCount := 0), Finished)
    requires d.fx.schema.Some? && bench.parseRoutes(d.fx.schema.value).Some?
    requires var events := Sweep(StaticGets(bench.parseRoutes(d.fx.schema.value).value), bench.probe, |fx2.probes|);
      d.fx.probes == fx2.probes + events && d.fx.kills == fx2.kills + TransportFailures(events) + 1
    ensures Progress(a, bench, fx, d)
  {
    assert Advances(fx, d.fx);
    assert AsksLeft(a) == BuildsLeft(a) >= 1;
    assert !Active(d.agent.common.state) && SameIdentity(d.agent.common, a.common);
    assert d.fx.builds - 1 == fx.builds && |fx2.probes| == |fx.probes| && fx2.kills == fx.kills;
  }

  /** The bookkeeping of a good build followed by a halted deployment. */
  lemma HaltedAfterGoodBuild(a: AgentBackendDeveloper, bench: Bench, fx: Effects, fx2: Effects, d: Next)
    requires a.common.state == Testing
    requires fx2 == fx.(confirms := fx.confirms + 1, builds := fx.builds + 1)
    requires d.Stop? && d.fx.asks == fx2.asks + [ExtractApi(fx2.code)] && Advances(fx2, d.fx)
    requires d.fx.builds == fx2.builds && d.fx.probes == fx2.probes && d.fx.kills == fx2.kills
    ensures Progress(a, bench, fx, d)
  {
    assert Advances(fx, d.fx);
    assert AsksLeft(a) == BuildsLeft(a) >= 1;
  }

  /** A good build leads to the deployment, which finishes or halts. */
  lemma GoodBuildProgress(a: AgentBackendDeveloper, c: SupportCase, bench: Bench, env: Env, fx: Effects)
    requires a.common.state == Testing
    requires bench.confirm(fx.confirms) && bench.build(fx.builds).Built?
    ensures Progress(a, bench, fx, TestStep(a, c, bench, env, fx))
  {
    var fx2 := fx.(confirms := fx.confirms + 1, builds := fx.builds + 1);
    var d := DeployStep(a.(bugErrors := None, bugCount := 0), c, bench, env, fx2);
    assert TestStep(a, c, bench, env, fx) == d;
    if d.Continue? {
      DeployedAfterGoodBuild(a, bench, fx, fx2, d);
    } else {
      HaltedAfterGoodBuild(a, bench, fx, fx2, d);
    }
  }

  lemma TestProgress(a: AgentBackendDeveloper, c: SupportCase, bench: Bench, env: Env, fx: Effects)
    requires a.common.state == Testing
    ensures Progress(a, bench, fx, TestStep(a, c, bench, env, fx))
  {
    if !bench.confirm(fx.confirms) {
    } else if bench.build(fx.builds).BuildFailed? {
      FailedBuildProgress(a, c, bench, env, fx);
    } else if bench.build(fx.builds).Built? {
      GoodBuildProgress(a, c, bench, env, fx);
    }
  }

  /** Every iteration makes progress. */
  lemma StepProgress(a: AgentBackendDeveloper, c: SupportCase, bench: Bench, env: Env, fx: Effects)
    requires Active(a.common.state)
    ensures Progress(a, bench, fx, Step(a, c, bench, env, fx))
  {
    match a.common.state
    case Waiting => GenerateProgress(a, c, bench, env, fx);
    case Working => DevelopProgress(a, c, bench, env, fx);
    case Testing => TestProgress(a, c, bench, env, fx);
  }

  /**
   * `execute`: runs the loop from any agent until Finished, a halt, or
   * forever. The variant `Measure` drops on every iteration.
   */
  function Run(a: AgentBackendDeveloper, c: SupportCase, bench: Bench, env: Env, fx: Effects): Outcome
    decreases Measure(a)
  {
    match a.common.state
    case Finished => Returned(a, fx)
    case Error => Spins(a, fx)
    case Waiting | Working | Testing =>
      StepProgress(a, c, bench, env, fx);
      match Step(a, c, bench, env, fx)
      case Stop(reason, fx') => Halted(reason, fx')
      case Continue(a', fx') => Run(a', c, bench, env, fx')
  }

  /**
   * How runs end: at once from Finished; never from Error; otherwise in
   * Finished with the same identity, or in a halt, but never spinning,
   * because the loop itself never sets Error.
   */
  lemma {:induction false} RunEnds(a: AgentBackendDeveloper, c: SupportCase, bench: Bench, env: Env, fx: Effects)
    ensures var r := Run(a, c, bench, env, fx);
      && (a.common.state == Finished ==> r == Returned(a, fx))
      && (a.common.state == Error ==> r == Spins(a, fx))
      && (a.common.state != Error ==> !r.Spins?)
      && (r.Returned? ==> r.agent.common.state == Finished && SameIdentity(r.agent.common, a.common))
    decreases Measure(a)
  {
    if Active(a.common.state) {
      StepProgress(a, c, bench, env, fx);
      var n := Step(a, c, bench, env, fx);
      if n.Continue? {
        RunEnds(n.agent, c, bench, env, n.fx);
      }
    }
  }

  /**
   * A run stays within its budgets: at most `AsksLeft` requests (so at
   * most twice as many gateway calls) and `BuildsLeft` builds.
   */
  lemma {:induction false} RunBudget(a: AgentBackendDeveloper, c: SupportCase, bench: Bench, env: Env, fx: Effects)
    ensures var r := Run(a, c, bench, env, fx);
      && Advances(fx, r.fx)
      && |r.fx.asks| <= |fx.asks| + AsksLeft(a)
      && r.fx.builds <= fx.builds + BuildsLeft(a)
    decreases Measure(a)
  {
    if Active(a.common.state) {
      StepProgress(a, c, bench, env, fx);
      var n := Step(a, c, bench, env, fx);
      if n.Continue? {
        RunBudget(n.agent, c, bench, env, n.fx);
      }
    }
  }

  /** A halted run probed nothing and killed nothing: every halt comes before the server is started. */
  lemma {:induction false} RunHaltsBeforeProbing(a: AgentBackendDeveloper, c: SupportCase, bench: Bench, env: Env, fx: Effects)
    ensures var r := Run(a, c, bench, env, fx);
      r.Halted? ==> r.fx.probes == fx.probes && r.fx.kills == fx.kills
    decreases Measure(a)
  {
    if Active(a.common.state) {
      StepProgress(a, c, bench, env, fx);
      var n := Step(a, c, bench, env, fx);
      if n.Continue? {
        RunHaltsBeforeProbing(n.agent, c, bench, env, n.fx);
      }
    }
  }

  /** What a run's deployment looks like from its start, given how it looks from after the first iteration. */
  lemma DeployedFromStart(a: AgentBackendDeveloper, bench: Bench, fx: Effects, n: Next, r: Outcome)
    requires Progress(a, bench, fx, n) && n.Continue?
    requires n.agent.common.state == Finished ==> r == Returned(n.agent, n.fx)
    requires r.Returned? && n.agent.common.state != Finished ==>
      && Deployed(r.agent, bench, n.fx, r.fx)
      && forall k :: n.fx.builds <= k < r.fx.builds - 1 ==> bench.build(k).BuildFailed?
    ensures r.Returned? ==>
      && Deployed(r.agent, bench, fx, r.fx)
      && forall k :: fx.builds <= k < r.fx.builds - 1 ==> bench.build(k).BuildFailed?
  {
    if r.Returned? {
      if n.agent.common.state == Finished {
        assert r.fx == n.fx && r.fx.builds - 1 == fx.builds;
      } else {
        assert n.fx.probes == fx.probes && n.fx.kills == fx.kills;
        assert fx.builds <= n.fx.builds < r.fx.builds;
        forall k | fx.builds <= k < r.fx.builds - 1
          ensures bench.build(k).BuildFailed?
        {
          if k < n.fx.builds {
            assert k == fx.builds;
          }
        }
      }
    }
  }

  /**
   * A run that reached Finished from a working state built successfully
   * after nothing but failed builds, and probed exactly the static GET
   * endpoints of the schema it saved, once each, in order.
   */
  lemma {:induction false} RunDeploys(a: AgentBackendDeveloper, c: SupportCase, bench: Bench, env: Env, fx: Effects)
    ensures var r := Run(a, c, bench, env, fx);
      r.Returned? && a.common.state != Finished ==>
        && Deployed(r.agent, bench, fx, r.fx)
        && forall k :: fx.builds <= k < r.fx.builds - 1 ==> bench.build(k).BuildFailed?
    decreases Measure(a)
  {
    if Active(a.common.state) {
      StepProgress(a, c, bench, env, fx);
      var n := Step(a, c, bench, env, fx);
      if n.Continue? {
        var r := Run(n.agent, c, bench, env, n.fx);
        assert Run(a, c, bench, env, fx) == r;
        RunDeploys(n.agent, c, bench, env, n.fx);
        DeployedFromStart(a, bench, fx, n, r);
      }
    }
  }

  /**
   * Once as many builds in a row fail as the agent still tolerates (three
   * for a fresh agent), the run never reaches Finished.
   */
  lemma {:induction false} ConsecutiveFailuresHalt(a: AgentBackendDeveloper, c: SupportCase, bench: Bench, env: Env, fx: Effects)
    requires Active(a.common.state) && a.bugCount <= MaxBugs
    requires forall k :: fx.builds <= k <= fx.builds + MaxBugs - a.bugCount ==> bench.build(k).BuildFailed?
    ensures !Run(a, c, bench, env, fx).Returned?
    decreases Measure(a)
  {
    StepProgress(a, c, bench, env, fx);
    var n := Step(a, c, bench, env, fx);
    assert bench.build(fx.builds).BuildFailed?;
    if n.Continue? {
      var b := n.agent;
      assert Run(a, c, bench, env, fx) == Run(b, c, bench, env, n.fx);
      match a.common.state
      case Waiting =>
        assert b.bugCount == a.bugCount && n.fx.builds == fx.builds;
        ConsecutiveFailuresHalt(b, c, bench, env, n.fx);
      case Working =>
        assert b.bugCount == a.bugCount && n.fx.builds == fx.builds;
        ConsecutiveFailuresHalt(b, c, bench, env, n.fx);
      case Testing =>
        assert b.bugCount == a.bugCount + 1 && n.fx.builds == fx.builds + 1;
        ConsecutiveFailuresHalt(b, c, bench, env, n.fx);
    }
  }

  /**
   * The oracles cooperate: the user always confirms, the language model
   * always answers, every schema decodes and the server starts.
   */
  ghost predicate Cooperative(bench: Bench, env: Env)
  {
    && (forall k :: Confirms(bench, k))
    && (forall k :: Answers(env, k))
    && (forall s :: Decodes(bench, s))
    && bench.serverStarts
  }

  /** Builds `from` to `from + j - 1` fail and build `from + j` succeeds. */
  predicate FailsThenBuilds(bench: Bench, from: nat, j: nat)
    decreases j
  {
    if j == 0 then bench.build(from).Built?
    else bench.build(from).BuildFailed? && FailsThenBuilds(bench, from + 1, j - 1)
  }

  /** The user's `k`-th answer to the safety question is yes. */
  predicate Confirms(bench: Bench, k: nat) { bench.confirm(k) }

  /** The `k`-th gateway call gets a reply. */
  predicate Answers(env: Env, k: nat) { env.gateway(k).Ok? }

  /** The schema text `s` decodes as a route list. */
  predicate Decodes(bench: Bench, s: string) { bench.parseRoutes(s).Some? }

  /**
   * A run ended in Finished after `asks` more requests, the last of them
   * the schema request, and `builds` more builds.
   */
  predicate FinishedAfter(r: Outcome, fx: Effects, asks: nat, builds: nat)
  {
    && r.Returned?
    && r.fx.builds == fx.builds + builds
    && |r.fx.asks| == |fx.asks| + asks
    && asks > 0 && r.fx.asks[|r.fx.asks| - 1].ExtractApi?
  }

  /** Counting from one iteration earlier: that iteration's requests and builds are added. */
  lemma FinishedAfterEarlier(r: Outcome, fx: Effects, fx': Effects, asks: nat, builds: nat)
    requires FinishedAfter(r, fx', asks, builds)
    requires fx.builds <= fx'.builds && |fx.asks| <= |fx'.asks|
    ensures FinishedAfter(r, fx, asks + |fx'.asks| - |fx.asks|, builds + fx'.builds - fx.builds)
  {
  }

  /**
   * With cooperative oracles, a run whose next `j` builds fail and whose
   * build after them succeeds reaches Finished, provided the agent still
   * tolerates `j` more failures. It makes the requests still due before
   * the next build, one fix per failed build and, last, one schema
   * request, and starts exactly `j + 1` builds.
   */
  lemma {:induction false} RunFinishes(a: AgentBackendDeveloper, c: SupportCase, bench: Bench, env: Env, fx: Effects, j: nat)
    requires Active(a.common.state) && Cooperative(bench, env)
    requires a.bugCount + j <= MaxBugs
    requires FailsThenBuilds(bench, fx.builds, j)
    ensures FinishedAfter(Run(a, c, bench, env, fx), fx, Pending(a.common.state) + j + 1, j + 1)
    decreases Measure(a), 2
  {
    match a.common.state
    case Waiting => FinishesFromWaiting(a, c, bench, env, fx, j);
    case Working => FinishesFromWorking(a, c, bench, env, fx, j);
    case Testing => FinishesFromTesting(a, c, bench, env, fx, j);
  }

  /** `RunFinishes` from Waiting: the generation request, then the run from Working. */
  lemma {:induction false} FinishesFromWaiting(a: AgentBackendDeveloper, c: SupportCase, bench: Bench, env: Env, fx: Effects, j: nat)
    requires a.common.state == Waiting && Cooperative(bench, env)
    requires a.bugCount + j <= MaxBugs
    requires FailsThenBuilds(bench, fx.builds, j)
    ensures FinishedAfter(Run(a, c, bench, env, fx), fx, 2 + j + 1, j + 1)
    decreases Measure(a), 1
  {
    assert Answers(env, |fx.io.sent|);
    var b, fx' := GenerateAnswered(a, c, bench, env, fx);
    RunFinishes(b, c, bench, env, fx', j);
    FinishedAfterEarlier(Run(b, c, bench, env, fx'), fx, fx', 1 + j + 1, j + 1);
  }

  /** `RunFinishes` from Working: the improvement or fix request, then the run from Testing. */
  lemma {:induction false} FinishesFromWorking(a: AgentBackendDeveloper, c: SupportCase, bench: Bench, env: Env, fx: Effects, j: nat)
    requires a.common.state == Working && Cooperative(bench, env)
    requires a.bugCount + j <= MaxBugs
    requires FailsThenBuilds(bench, fx.builds, j)
    ensures FinishedAfter(Run(a, c, bench, env, fx), fx, 1 + j + 1, j + 1)
    decreases Measure(a), 1
  {
    assert Answers(env, |fx.io.sent|);
    var b, fx' := DevelopAnswered(a, c, bench, env, fx);
    RunFinishes(b, c, bench, env, fx', j);
    FinishedAfterEarlier(Run(b, c, bench, env, fx'), fx, fx', j + 1, j + 1);
  }

  /** `RunFinishes` from Testing: deploy after a good build, or go back to Working after a failed one. */
  lemma {:induction false} FinishesFromTesting(a: AgentBackendDeveloper, c: SupportCase, bench: Bench, env: Env, fx: Effects, j: nat)
    requires a.common.state == Testing && Cooperative(bench, env)
    requires a.bugCount + j <= MaxBugs
    requires FailsThenBuilds(bench, fx.builds, j)
    ensures FinishedAfter(Run(a, c, bench, env, fx), fx, j + 1, j + 1)
    decreases Measure(a), 1
  {
    if j == 0 {
      GoodBuildFinishes(a, c, bench, env, fx);
    } else {
      FinishesAfterFailure(a, c, bench, env, fx, j);
    }
  }

  /** `FinishesFromTesting` when the build fails: back to Working with one more bug, then `RunFinishes` again. */
  lemma {:induction false} FinishesAfterFailure(a: AgentBackendDeveloper, c: SupportCase, bench: Bench, env: Env, fx: Effects, j: nat)
    requires a.common.state == Testing && Cooperative(bench, env)
    requires 0 < j && a.bugCount + j <= MaxBugs
    requires bench.build(fx.builds).BuildFailed? && FailsThenBuilds(bench, fx.builds + 1, j - 1)
    ensures FinishedAfter(Run(a, c, bench, env, fx), fx, j + 1, j + 1)
    decreases Measure(a), 0
  {
    assert Confirms(bench, fx.confirms);
    var b, fx' := FailedBuildRetries(a, c, bench, env, fx);
    RunFinishes(b, c, bench, env, fx', j - 1);
    FinishedAfterEarlier(Run(b, c, bench, env, fx'), fx, fx', j + 1, j);
  }

  /** An answered generation request moves Waiting to Working. */
  lemma GenerateAnswered(a: AgentBackendDeveloper, c: SupportCase, bench: Bench, env: Env, fx: Effects)
    returns (b: AgentBackendDeveloper, fx': Effects)
    requires a.common.state == Waiting && env.gateway(|fx.io.sent|).Ok?
    ensures Run(a, c, bench, env, fx) == Run(b, c, bench, env, fx')
    ensures b.common.state == Working && b.bugCount == a.bugCount && Measure(b) < Measure(a)
    ensures fx'.builds == fx.builds && |fx'.asks| == |fx.asks| + 1
  {
    var n := GenerateStep(a, c, bench, env, fx);
    assert Step(a, c, bench, env, fx) == n;
    RunUnfolds(a, c, bench, env, fx);
    b, fx' := n.agent, n.fx;
  }

  /** An answered improvement or fix request moves Working to Testing. */
  lemma DevelopAnswered(a: AgentBackendDeveloper, c: SupportCase, bench: Bench, env: Env, fx: Effects)
    returns (b: AgentBackendDeveloper, fx': Effects)
    requires a.common.state == Working && env.gateway(|fx.io.sent|).Ok?
    ensures Run(a, c, bench, env, fx) == Run(b, c, bench, env, fx')
    ensures b.common.state == Testing && b.bugCount == a.bugCount && Measure(b) < Measure(a)
    ensures fx'.builds == fx.builds && |fx'.asks| == |fx.asks| + 1
  {
    var n := DevelopStep(a, c, bench, env, fx);
    assert Step(a, c, bench, env, fx) == n;
    RunUnfolds(a, c, bench, env, fx);
    b, fx' := n.agent, n.fx;
  }

  /** A confirmed failed build within the tolerance sends the agent back to Working. */
  lemma FailedBuildRetries(a: AgentBackendDeveloper, c: SupportCase, bench: Bench, env: Env, fx: Effects)
    returns (b: AgentBackendDeveloper, fx': Effects)
    requires a.common.state == Testing && a.bugCount < MaxBugs
    requires bench.confirm(fx.confirms) && bench.build(fx.builds).BuildFailed?
    ensures Run(a, c, bench, env, fx) == Run(b, c, bench, env, fx')
    ensures b.common.state == Working && b.bugCount == a.bugCount + 1 && Measure(b) < Measure(a)
    ensures fx'.builds == fx.builds + 1 && fx'.asks == fx.asks
  {
    var n := TestStep(a, c, bench, env, fx);
    assert Step(a, c, bench, env, fx) == n;
    RunUnfolds(a, c, bench, env, fx);
    b, fx' := n.agent, n.fx;
  }

  /** With cooperative oracles, a confirmed good build deploys and finishes, after one schema request. */
  lemma GoodBuildFinishes(a: AgentBackendDeveloper, c: SupportCase, bench: Bench, env: Env, fx: Effects)
    requires a.common.state == Testing && Cooperative(bench, env)
    requires bench.build(fx.builds).Built?
    ensures var r := Run(a, c, bench, env, fx);
      && r.Returned?
      && r.fx.builds == fx.builds + 1 && r.fx.asks == fx.asks + [ExtractApi(fx.code)]
    ensures FinishedAfter(Run(a, c, bench, env, fx), fx, 1, 1)
  {
    var fx2 := fx.(confirms := fx.confirms + 1, builds := fx.builds + 1);
    var b := a.(bugErrors := None, bugCount := 0);
    assert Confirms(bench, fx.confirms);
    var n := DeployStep(b, c, bench, env, fx2);
    assert Step(a, c, bench, env, fx) == n;
    assert Answers(env, |fx2.io.sent|);
    var ans := Consult(b, c, bench, env, fx2, ExtractApi(fx2.code));
    assert Decodes(bench, ans.text);
    assert n.Continue? && n.agent.common.state == Finished;
    RunUnfolds(a, c, bench, env, fx);
  }

  /**
   * A fresh agent whose first two builds fail and whose third succeeds
   * finishes, with the bug record cleared, after three builds and five
   * requests, the last of them the schema request.
   */
  lemma TwoFailuresThenSuccess(c: SupportCase, bench: Bench, env: Env, fx: Effects)
    requires Cooperative(bench, env)
    requires bench.build(fx.builds).BuildFailed? && bench.build(fx.builds + 1).BuildFailed?
    requires bench.build(fx.builds + 2).Built?
    ensures var r := Run(New(), c, bench, env, fx);
      && r.Returned? && r.agent.common.state == Finished
      && r.agent.bugCount == 0 && r.agent.bugErrors == None
      && FinishedAfter(r, fx, 5, 3)
  {
    assert FailsThenBuilds(bench, fx.builds + 2, 0);
    assert FailsThenBuilds(bench, fx.builds, 2);
    RunFinishes(New(), c, bench, env, fx, 2);
    RunEnds(New(), c, bench, env, fx);
    RunDeploys(New(), c, bench, env, fx);
  }

  /** After a failed build the agent asks for a fix of the saved code, quoting exactly that build's errors. */
  lemma RetryQuotesErrors(a: AgentBackendDeveloper, c: SupportCase, bench: Bench, env: Env, fx: Effects)
    requires a.common.state == Testing && a.bugCount < MaxBugs
    requires bench.confirm(fx.confirms) && bench.build(fx.builds).BuildFailed?
    ensures var n := TestStep(a, c, bench, env, fx);
      && n.Continue? && n.agent.common.state == Working
      && DevelopStep(n.agent, c, bench, env, n.fx).fx.asks
         == n.fx.asks + [FixBugs(fx.code, Some(bench.build(fx.builds).stderr))]
  {
  }

  /**
   * A fresh agent's run never spins, makes at most five requests (so at
   * most ten gateway calls) and at most three builds.
   */
  lemma FreshRunBudget(c: SupportCase, bench: Bench, env: Env, fx: Effects)
    ensures var r := Run(New(), c, bench, env, fx);
      && !r.Spins?
      && |r.fx.asks| <= |fx.asks| + 5
      && |r.fx.io.sent| <= |fx.io.sent| + 10
      && r.fx.builds <= fx.builds + 3
  {
    RunEnds(New(), c, bench, env, fx);
    RunBudget(New(), c, bench, env, fx);
    assert AsksLeft(New()) == 5 && BuildsLeft(New()) == 3;
  }

  /** A run from a working state is its first iteration followed by the run from there. */
  lemma RunUnfolds(a: AgentBackendDeveloper, c: SupportCase, bench: Bench, env: Env, fx: Effects)
    requires Active(a.common.state)
    ensures var n := Step(a, c, bench, env, fx);
      Run(a, c, bench, env, fx) == if n.Stop? then Halted(n.reason, n.fx) else Run(n.agent, c, bench, env, n.fx)
  {
  }

  /** The shape of a request log that starts with a generation, possibly followed by an improvement and anything after it. */
  lemma LogStartsWith(base: seq<Ask>, got: seq<Ask>, final: seq<Ask>)
    requires got == base + [Generate] || got == base + [Generate] + [Improve]
    requires got <= final
    requires got == base + [Generate] ==> final == got
    ensures |final| > |base| && final[|base|] == Generate
    ensures |final| > |base| + 1 ==> final[|base| + 1] == Improve
  {
    assert final[|base|] == got[|base|];
    if got != base + [Generate] {
      assert final[|base| + 1] == got[|base| + 1];
    }
  }

  /** A fresh agent first asks for the initial code and then, if it got it, for the improved code. */
  lemma FreshRunAsks(c: SupportCase, bench: Bench, env: Env, fx: Effects)
    ensures var r := Run(New(), c, bench, env, fx);
      && |r.fx.asks| > |fx.asks|
      && r.fx.asks[|fx.asks|] == Generate
      && (|r.fx.asks| > |fx.asks| + 1 ==> r.fx.asks[|fx.asks| + 1] == Improve)
  {
    var a := New();
    var r := Run(a, c, bench, env, fx);
    RunUnfolds(a, c, bench, env, fx);
    var n := GenerateStep(a, c, bench, env, fx);
    assert Step(a, c, bench, env, fx) == n;
    if n.Stop? {
      LogStartsWith(fx.asks, n.fx.asks, r.fx.asks);
    } else {
      assert n.agent.common.state == Working && n.agent.bugCount == 0;
      RunUnfolds(n.agent, c, bench, env, n.fx);
      var m := DevelopStep(n.agent, c, bench, env, n.fx);
      assert Step(n.agent, c, bench, env, n.fx) == m;
      assert DevelopAsk(n.agent, n.fx) == Improve;
      if m.Continue? {
        RunBudget(m.agent, c, bench, env, m.fx);
      }
      assert m.fx.asks <= r.fx.asks;
      LogStartsWith(fx.asks, m.fx.asks, r.fx.asks);
    }
  }
}
