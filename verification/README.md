# Customer-support agent pipeline, modelled in Dafny

This project models the agent pipeline of a customer-support assistant written in Rust.

A support case is one shared record. It holds:

- the context and the customer's query;
- the sentiment, the intent and the response;
- the escalation flags;
- the list of resolving actions;
- a trace of every message exchanged with the language model.

Small agents each read the case, ask the language model, and update fields of the case:

- the customer-query agent;
- the sentiment agent;
- the intent classifier;
- the escalation manager.

A coordinator registers the query, sentiment and escalation agents. It then runs every registered agent once, in order, on the same case. A separate backend-developer agent runs a build-and-verify loop:

1. It generates web-server code with the language model.
2. It asks the user to confirm the code is safe, then builds it.
3. It feeds build errors back for fixing, giving up after the third failed build in a row.
4. Once a build succeeds, it extracts the endpoint schema and probes the static GET endpoints of the running server.

Everything outside the program is a scripted oracle passed in as a parameter:

- the language-model gateway;
- the clock;
- the JSON decoder;
- the build tool;
- the user's confirmation;
- the server process and the HTTP probe.

Oracles are indexed by how often they have been consulted. For example, `World.Env.gateway(n)` is the reply to the n-th gateway call, and `Io` counts the calls made and clock readings taken. Every operation is a pure function. It returns the new agent, the new case and the updated consumption record.

A panic (`expect`, `unwrap`, `panic!`) is an explicit outcome: `Agents.Exec.Panicked`, or `Backend.Outcome.Halted` with a reason.

Modules, one per source file:

- `Base`: options, messages, timestamps, ids, `join`.
- `World`: the gateway and clock oracles.
- `Request`: `prepare_message` and `ai_request`.
- `SupportCases`: the support-case record.
- `Agents`: the agent state and `CommonAgent`.
- `Sentiment`, `Query`, `Intent` and `Escalation`: the four support agents.
- `Routes`: endpoint records and the static-GET filter.
- `Backend`: the backend developer.
- `Coordinator`: the coordinator.

## Model

| member | source | states |
|---|---|---|
| Base.Join | src/models/agents/agent_backend.rs:139 | a non-empty list joins to a string that starts with its first element and whose length is the elements' total length plus one separator between each pair of neighbours |
| World.ReadClock | src/models/general/support_case.rs:51 | `Local::now()` yields the next scripted clock reading and consumes exactly that one reading, sending nothing |
| Request.Escape | src/helpers/request.rs:11-13 | carries no ensures of its own: ReadQuotedBodyEscape states that the escaped body reads back, up to its closing quote, as the original string |
| Request.Debug | src/helpers/request.rs:11-13 | carries no ensures of its own: ReadFieldDebug states that a label followed by the Debug rendering reads back as the rendered string |
| Request.PromptText | src/helpers/request.rs:9-16 | carries no ensures of its own: PromptRoundTrip states that the formatted content decodes back to exactly its objective, context and query |
| Request.PrepareMessage | src/helpers/request.rs:8-22 | the prepared message always has role "system" |
| Request.PromptRoundTrip | src/helpers/request.rs:9-16 | the content decodes back to exactly the objective, context and query, in that order, under the INSTRUCTIONS, CONTEXT and QUERY labels; the Debug quoting loses nothing |
| Request.ReadFieldDebug | src/helpers/request.rs:11-13 | a label followed by a Debug-quoted string reads back as that string, with the rest of the text left over |
| Request.ReadQuotedBodyEscape | src/helpers/request.rs:11-13 | reading an escaped string body stops exactly at its closing quote and recovers the original string |
| Request.ReadQuotedBodyChar | src/helpers/request.rs:11-13 | decoding one escaped character in front of a decodable body prepends exactly that character |
| Request.AiRequest | src/helpers/request.rs:25-34 | one gateway call if it succeeds (its text is returned); otherwise exactly one more call, whose result, success or failure, is returned; never more than two calls; the request fails exactly when both calls fail; the clock is not read |
| SupportCases.New | src/models/general/support_case.rs:24-40 | the given context, query, id and timestamps; every optional field None; all three flags false; empty trace and actions; empty history |
| SupportCases.Updated | src/models/general/support_case.rs:50-52 | `updated_at` becomes the new reading and every other field is unchanged |
| SupportCases.GetHistory | src/models/general/support_case.rs:41-49 | the loop's result is the content plus newline of each non-system message, in trace order |
| SupportCases.HistoryIsVisibleLines | src/models/general/support_case.rs:41-49 | the history built message by message equals the concatenation over the non-system messages |
| SupportCases.Visible | src/models/general/support_case.rs:44 | the kept messages are exactly those of the trace whose role is not "system" |
| SupportCases.HistoryAppend | src/models/general/support_case.rs:43-47 | the history of a concatenation of traces is the concatenation of their histories |
| SupportCases.HistoryIgnoresSystem | src/models/general/support_case.rs:43-47 | appending a system message leaves the history unchanged |
| SupportCases.HistoryEmptyIffAllSystem | src/models/general/support_case.rs:43-47 | the history is empty if and only if every message in the trace is a system message |
| SupportCases.VisibleAppend | src/models/general/support_case.rs:43-47 | filtering a concatenation filters each part in place |
| SupportCases.LinesAppend | src/models/general/support_case.rs:43-47 | the rendered lines of a concatenation are the concatenated lines |
| Agents.New | src/models/agents_common/common_agent.rs:22-29 | the getters observe the given role and objective, the Waiting state and an empty memory |
| Agents.UpdateState | src/models/agents_common/common_agent.rs:30-44 | the getter observes the new state; role, objective and memory read the same as before |
| Sentiment.New | src/models/agents/agent_sentiment.rs:17-26 | a Waiting agent with the psychologist role, its persona as objective and an empty memory |
| Sentiment.AnalyzeSentiment | src/models/agents/agent_sentiment.rs:28-61 | exactly one system prompt appended; one gateway request and one clock reading; a reply becomes the sentiment, escalates exactly when it is "Negative", and leaves the agent Finished; a failure's text becomes the support response with the agent in Error; no other field changes |
| Sentiment.Execute | src/models/agents/agent_sentiment.rs:66-91 | always ends Finished; from Waiting it is one analysis, from any other state it changes nothing, so a second run is a no-op; the trace grows by at most one |
| Sentiment.NegativeEscalates | src/models/agents/agent_sentiment.rs:36-50 | a successful reply, from the first call or from the retry, is stored as the sentiment; "Negative" sets the escalation flag, any other reply leaves it as it was |
| Query.New | src/models/agents/agent_query.rs:17-25 | a Waiting agent with the customer-support role, its persona as objective and an empty memory |
| Query.HandleInitialQuery | src/models/agents/agent_query.rs:27-46 | on a reply the trace grows by the prompt then an assistant message carrying the reply, which is the support response, and the agent is Finished; on failure the trace grows by the prompt only, the error text is the support response and the agent is in Error; the support response is always set; sentiment, intent and escalation fields are untouched |
| Query.Drive | src/models/agents/agent_query.rs:51-72 | the loop ends Finished; from Waiting it is one initial query, from any other state the case is untouched |
| Query.Execute | src/models/agents/agent_query.rs:50-81 | from Waiting it never panics and ends Finished with a support response; the final unwrap panics exactly when the agent did not start Waiting and the case has no support response; the trace grows by at most two |
| Intent.New | src/models/agents/agent_intent.rs:18-49 | a Waiting agent with the intent-classifier role, its persona as objective and an empty memory |
| Intent.ClassifyIntent | src/models/agents/agent_intent.rs:51-66 | exactly one prompt appended; a reply becomes the intent category and the agent is Finished; a failure's text becomes the support response, the category is unchanged and the agent is in Error |
| Intent.Drive | src/models/agents/agent_intent.rs:78-102 | the loop ends Finished, whatever the starting state; only Waiting consults the gateway |
| Intent.Execute | src/models/agents/agent_intent.rs:77-114 | a completed run resets the agent to Waiting with an intent category set; from Waiting, a reply from `ai_request`, whether from the first call or the retry, never panics and becomes the category, and when `ai_request` fails the unwrap panics exactly when the case had no category; from a non-Waiting state it panics exactly when there is no category |
| Escalation.New | src/models/agents/agent_escalation.rs:33-43 | a Waiting agent with the escalation-manager role, its persona as objective and an empty memory |
| Escalation.PopulateResolvingActions | src/models/agents/agent_escalation.rs:45-60 | panics exactly when a reply does not decode as a string array; a decoded reply replaces the actions and leaves the agent Working; a failure leaves the actions unchanged and the agent in Error; one prompt appended; the clock is not read |
| Escalation.HandleEscalation | src/models/agents/agent_escalation.rs:62-89 | ends Finished even after a failure; "upper management" sets both escalation flags and keeps the support response; any other reply becomes the support response with the flags unchanged; a failure changes neither; one prompt appended and the case marked updated |
| Escalation.ActionsPromptFor | src/models/agents/agent_escalation.rs:47-49 | carries no ensures of its own: ActionsPromptReadsBack states its content |
| Escalation.ActionsPromptReadsBack | src/models/agents/agent_escalation.rs:47-49 | the actions request is a system prompt that reads back as the actions instruction over the case's context and customer query |
| Escalation.DecisionPromptFor | src/models/agents/agent_escalation.rs:64-66 | carries no ensures of its own: DecisionPromptReadsBack states its content |
| Escalation.DecisionPromptReadsBack | src/models/agents/agent_escalation.rs:64-66 | the decision request is a system prompt that reads back as the case's context and customer query under an instruction that starts with the objective followed by " ONLY AVAILABLE ACTIONS:" and continues with the first action of the comma-joined list |
| Escalation.Step | src/models/agents/agent_escalation.rs:96-119 | carries no ensures of its own: StepFrame states what one loop iteration does |
| Escalation.StepFrame | src/models/agents/agent_escalation.rs:95-119 | each loop iteration moves the agent towards Finished, keeps its identity, only grows the trace and never touches sentiment, intent or the escalation request |
| Escalation.Execute | src/models/agents/agent_escalation.rs:94-133 | a case that does not ask for escalation comes back unchanged, with the agent unchanged; otherwise a run that does not panic ends Finished; sentiment, intent and the escalation request are never changed |
| Escalation.ExecuteFromWaiting | src/models/agents/agent_escalation.rs:95-100 | from Waiting, a run is the actions request followed by a run from the state it leaves |
| Escalation.ExecuteFromWorking | src/models/agents/agent_escalation.rs:101-104 | from Working, a run is exactly one decision |
| Escalation.ExecuteFromError | src/models/agents/agent_escalation.rs:105-115 | from Error, a run only marks the agent Finished |
| Escalation.EscalateFromWaiting | src/models/agents/agent_escalation.rs:95-119 | an undecodable actions reply panics the run; decoded actions are followed by exactly one decision, so the trace grows by two; a failed actions request ends Finished after one prompt |
| Routes.StaticGets | src/models/agents/agent_backend.rs:292-296 | a route is kept exactly when it occurs in the input and its method is "get" and its dynamic flag is "false", compared exactly; never more routes than given |
| Routes.StaticGetsCount | src/models/agents/agent_backend.rs:292-296 | each static GET route is kept as many times as it occurs, every other route never |
| Routes.StaticGetsAppend | src/models/agents/agent_backend.rs:292-296 | filtering a concatenation filters each part in place, so the kept routes keep their relative order |
| Routes.StaticGetsKeepsAll | src/models/agents/agent_backend.rs:292-296 | a list of static GET routes passes through unchanged |
| Routes.StaticGetsIdempotent | src/models/agents/agent_backend.rs:292-296 | filtering twice is filtering once |
| Backend.New | src/models/agents/agent_backend.rs:121-133 | a Waiting agent with the backend role and objective, no recorded errors and a zero bug count |
| Backend.Consult | src/models/agents/agent_backend.rs:134-194 | each request is recorded once and goes through the single-retry gateway wrapper; it has an answer exactly when that wrapper returns one |
| Backend.AskMessageReadsBack | src/models/agents/agent_backend.rs:137-187 | every request is a system prompt that reads back as the agent's objective, the case's context and a query opening with the request's instruction |
| Backend.AskMessage | src/models/agents/agent_backend.rs:141-187 | carries no ensures of its own: AskMessageReadsBack states what the `prepare_message` calls build |
| Backend.DebugOption | src/models/agents/agent_backend.rs:169-170 | carries no ensures of its own: DebugOptionRoundTrip states that the rendering of the last build errors reads back as the same option |
| Backend.DebugOptionRoundTrip | src/models/agents/agent_backend.rs:169-170 | `None` and `Some` of any text render so that reading the rendering back gives the same option |
| Backend.AskText | src/models/agents/agent_backend.rs:134-186 | every request text opens with its own instruction: generation, improvement, bug fixing or API extraction |
| Backend.GenerateStep | src/models/agents/agent_backend.rs:208-216 | Waiting asks for the initial code, saves the answer as the executable code and moves to Working; a missing answer halts |
| Backend.DevelopAsk | src/models/agents/agent_backend.rs:219-223 | improvement is asked for exactly when the bug count is zero, otherwise a fix of the saved code with the last build errors |
| Backend.DevelopStep | src/models/agents/agent_backend.rs:217-226 | Working makes that request, saves the answer and moves to Testing; a missing answer halts |
| Backend.TestStep | src/models/agents/agent_backend.rs:227-281 | a declined confirmation halts before any build; a failed build records its stderr and increments the bug count, returning to Working while the count stays within two and halting on the third failure in a row; a good build clears errors and count and goes on to deployment |
| Backend.DeployStep | src/models/agents/agent_backend.rs:283-372 | asks for the schema of the saved code and saves any answer as the schema; the step succeeds exactly when there is an answer, it decodes and the server starts; otherwise it halts for no answer, an undecodable schema or a server that cannot start, in that order; on success every static GET route is probed once, in order, the server is killed once per transport error and once at the end, and the agent is Finished |
| Backend.Sweep | src/models/agents/agent_backend.rs:323-364 | one probe per selected endpoint, in order, at the server address followed by the route, whatever the earlier probes returned |
| Backend.TransportFailures | src/models/agents/agent_backend.rs:353-362 | there are never more transport failures than probes |
| Backend.NoTransportFailures | src/models/agents/agent_backend.rs:353-362 | no kill is requested during the sweep exactly when every probe returned a status code |
| Backend.Step | src/models/agents/agent_backend.rs:207-371 | carries no ensures of its own: StepProgress and TestProgress state what one loop iteration does from Waiting, Working and Testing |
| Backend.StepProgress | src/models/agents/agent_backend.rs:206-377 | every loop iteration lowers the variant (builds still allowed, then Waiting, Working, Testing), never enters Error, keeps the agent's identity and stays within the request and build budgets; an iteration that does not finish probes nothing |
| Backend.TestProgress | src/models/agents/agent_backend.rs:227-372 | the same for the Testing iteration, across the declined, failed-build and good-build outcomes |
| Backend.Run | src/models/agents/agent_backend.rs:202-380 | carries no ensures of its own: its contract is carried by RunEnds, RunBudget, RunDeploys, RunFinishes and ConsecutiveFailuresHalt |
| Backend.RunEnds | src/models/agents/agent_backend.rs:202-380 | the loop returns at once from Finished; an agent started in Error spins forever; from any other state it returns Finished with the same identity or halts, and never spins |
| Backend.RunBudget | src/models/agents/agent_backend.rs:206-380 | requests, gateway calls, confirmations and builds only accumulate, with at most two gateway calls per request; requests and builds stay within the remaining budgets |
| Backend.RunHaltsBeforeProbing | src/models/agents/agent_backend.rs:227-311 | a run that halts has probed nothing and requested no kill |
| Backend.RunDeploys | src/models/agents/agent_backend.rs:255-372 | a run that returns Finished ended with a good build, a decoded schema and the full sweep over its static GET routes, with the bug state cleared, after only failed builds before it |
| Backend.ConsecutiveFailuresHalt | src/models/agents/agent_backend.rs:262-281 | when every build the agent can still attempt fails, the run never reaches Finished |
| Backend.RunFinishes | src/models/agents/agent_backend.rs:202-380 | when the user confirms every build, the gateway always answers, the schema decodes and the server starts, and the builds fail j times and then succeed with j still within the bug tolerance, the run returns Finished after exactly the pending requests plus j fixes plus the schema request (the last one) and exactly j + 1 builds |
| Backend.FinishesFromWaiting | src/models/agents/agent_backend.rs:208-216 | RunFinishes from Waiting: the answered generation request, then the rest of the run |
| Backend.FinishesFromWorking | src/models/agents/agent_backend.rs:217-226 | RunFinishes from Working: the answered improvement or fix request, then the rest of the run |
| Backend.FinishesFromTesting | src/models/agents/agent_backend.rs:227-372 | RunFinishes from Testing: either the good build and deployment, or a failed build and the rest of the run |
| Backend.FinishesAfterFailure | src/models/agents/agent_backend.rs:262-276 | a failed build within the tolerance returns to Working with one more bug, and the run still finishes with one more build and one more request |
| Backend.GenerateAnswered | src/models/agents/agent_backend.rs:208-216 | an answered generation request moves Waiting to Working with one request more and no build, and the run continues from there |
| Backend.DevelopAnswered | src/models/agents/agent_backend.rs:217-226 | an answered improvement or fix request moves Working to Testing with one request more and no build, and the run continues from there |
| Backend.FailedBuildRetries | src/models/agents/agent_backend.rs:255-276 | a confirmed build that fails within the tolerance returns to Working with the bug count one higher, one build more and no request, and the run continues from there |
| Backend.GoodBuildFinishes | src/models/agents/agent_backend.rs:255-372 | with cooperative oracles a good build is followed by exactly one request, for the schema of the saved code, and the run returns Finished |
| Backend.FinishedAfterEarlier | src/models/agents/agent_backend.rs:202-380 | a finished run counted from a later point is the same finished run counted from an earlier one, with the requests and builds in between added |
| Backend.TwoFailuresThenSuccess | src/models/agents/agent_backend.rs:202-380 | a new agent whose first two builds fail and third succeeds, with cooperative oracles, returns Finished with the bug count back at 0 and no recorded errors, after five requests (the last for the schema) and three builds |
| Backend.RetryQuotesErrors | src/models/agents/agent_backend.rs:217-281 | after a failed build within the limit, the next request is a fix of the saved code quoting exactly that build's stderr |
| Backend.FreshRunBudget | src/models/agents/agent_backend.rs:202-380 | a new agent's run never spins, makes at most five requests and ten gateway calls, and starts at most three builds |
| Backend.FreshRunAsks | src/models/agents/agent_backend.rs:208-225 | a new agent's first request is the initial generation and its second, if any, the improvement |
| Coordinator.New | src/models/agents_coordinator/agent_coordinator.rs:16-28 | the case is a fresh case for the context and query, the coordinator's role and objective are set, it is Waiting, and the agent list is empty |
| Coordinator.AddAgent | src/models/agents_coordinator/agent_coordinator.rs:29-31 | the agent goes at the end; earlier entries and every other field stay |
| Coordinator.StandardAgents | src/models/agents_coordinator/agent_coordinator.rs:32-36 | the agents a request registers are, in order, of the query, sentiment and escalation kinds |
| Coordinator.CreateAgents | src/models/agents_coordinator/agent_coordinator.rs:32-36 | exactly three agents are appended, a fresh query, sentiment and escalation agent in that order; earlier entries stay |
| Coordinator.ExecuteAgent | src/models/agents_common/common_traits.rs:20 | running an entry keeps its kind and only grows the case's trace; sentiment agents and waiting query agents never panic |
| Coordinator.RunAgents | src/models/agents_coordinator/agent_coordinator.rs:40-45 | running the list keeps every entry's kind and only grows the case's trace |
| Coordinator.RunAgentsAppend | src/models/agents_coordinator/agent_coordinator.rs:40-45 | running a concatenation runs the first part, then the second on the case the first left; the first panic ends everything |
| Coordinator.RunOne | src/models/agents_coordinator/agent_coordinator.rs:40-45 | a one-entry list runs that entry |
| Coordinator.RunThree | src/models/agents_coordinator/agent_coordinator.rs:40-45 | a three-entry list runs each entry once, in order, each on the case the previous one left |
| Coordinator.HandleSupportRequest | src/models/agents_coordinator/agent_coordinator.rs:37-46 | the coordinator's own record is kept, the list's kinds are the old ones followed by query, sentiment and escalation, and the case only grows |
| Coordinator.RequestRerunsRegistered | src/models/agents_coordinator/agent_coordinator.rs:37-46 | a request runs every agent registered by earlier requests again, in order, then the three it registers on the case they left; the list afterwards is the re-run earlier agents followed by the new ones, and the first panic aborts the request |
| Coordinator.ExecuteQueryAgent | src/models/agents/agent_query.rs:50-81 | a query entry started Waiting never panics and runs the query agent |
| Coordinator.ExecuteSentimentAgent | src/models/agents/agent_sentiment.rs:66-91 | a sentiment entry never panics and runs the sentiment agent |
| Coordinator.ExecuteEscalationAgent | src/models/agents_coordinator/agent_coordinator.rs:41-44 | an escalation entry runs the escalation agent, and its panic ends the request |
| Coordinator.RunThreeLastMayPanic | src/models/agents_coordinator/agent_coordinator.rs:40-45 | when the first two entries do not panic, the run is all three in order, ended early only by the third's panic |
| Coordinator.FirstRequestRunsStandard | src/models/agents_coordinator/agent_coordinator.rs:37-46 | on an empty coordinator a request runs exactly the three standard agents |
| Coordinator.FirstRequestPipeline | src/models/agents_coordinator/agent_coordinator.rs:37-46 | on an empty coordinator a request runs the query, sentiment and escalation agents once each, in that order, on the same case; only the escalation agent can panic |
| Coordinator.Kinds | src/models/agents_coordinator/agent_coordinator.rs:12 | one kind per entry of the agent list |
| Coordinator.KindsAppend | src/models/agents_coordinator/agent_coordinator.rs:29-31 | the kinds of a concatenation are the concatenated kinds |
| Coordinator.KindsAt | src/models/agents_coordinator/agent_coordinator.rs:12 | entry i of the kinds is the kind of agent i |
| Coordinator.Rounds | src/models/agents_coordinator/agent_coordinator.rs:38 | k rounds of query, sentiment and escalation kinds have length 3k |
| Coordinator.RoundsAt | src/models/agents_coordinator/agent_coordinator.rs:38 | entry i of the rounds is kind i mod 3 |
| Coordinator.Requests | src/models/agents_coordinator/agent_coordinator.rs:37-46 | k successive requests append k rounds of query, sentiment and escalation agents to the list and only grow the case |
| Coordinator.AgentsAfterRequests | src/models/agents_coordinator/agent_coordinator.rs:38 | after k requests to a new coordinator the list holds 3k agents, entry i of kind i mod 3: the list is never reset |

## Where the model follows the code

The model follows the code as written, not an idealised description of it:

- **Probe sweep.** A transport error during the sweep does not end it. A kill is requested and the sweep goes on to the next endpoint. A final kill always follows.
- **Coordinator list.** Each request to the coordinator appends three more agents and runs the whole list again. Agents from an earlier request are run a second time, in whatever state they were left in.
- **Coordinator pipeline.** The pipeline is always query, sentiment, escalation. No intent-based routing takes place.
- **Escalation outcome.** The escalation agent's "upper management" outcome and a support response are not exclusive. The upper-management reply keeps an earlier support response.
- **Backend Error state.** The backend loop's catch-all arm changes nothing. An agent that starts in Error never leaves the loop, which the model records as `Spins`.
- **Testing state.** The shared state enum has no `Testing` variant, but the backend uses one. The model's `AgentState` includes it.
- **Assistant id.** The intent agent writes an assistant id that `CommonAgent` does not declare. The model omits assistant ids.

## Left out

- HTTP, process and file I/O: gateway requests, `cargo build` / `cargo run`, reading the code template and executable main file, saving the code and schema. They are oracles or recorded effects, because the model cannot perform I/O. The file reads and writes are assumed to succeed, so their `expect` panics (src/helpers/backend.rs:43, 50, 56, 63) are not modelled.
- Terminal output and colouring (`CLIPrint`), and the stdin prompt behind `confirm_safe_code`. The prompt is the `Bench.confirm` oracle; output has no effect on state.
- The five-second sleep and the HTTP client timeout. Time only matters through the oracles' answers.
- Whether a kill succeeds. A failed kill panics in the source, but the model counts kill requests and assumes they succeed, because process handling is outside the model.
- The UTF-8 check on the build's stderr. The model takes stderr as text already, because byte decoding is outside the logic modelled.
- `set_assistant_id`, assistant and thread ids, and the feedback agent. They depend on assistant sessions over the network, and the source uses names that are never declared.
- The HTTP clients and API data-transfer objects, including the floating-point temperature settings. None of them affects the pipeline's logic.
- The personas of the query, sentiment, intent and escalation agents are inline literals in each `new`. The model replaces each with a placeholder constant (`QUERY_OBJECTIVE`, `SENTIMENT_OBJECTIVE`, `INTENT_OBJECTIVE`, `ESCALATION_OBJECTIVE`), because no property depends on their wording. The escalation agent's long `ACTIONS_PROMPT` constant is replaced for the same reason, by `Escalation.ActionsPrompt`, whose value is its own name. The backend's four instruction texts are placeholders named after their source constants (`PROMPT_GENERATE_BACKEND` and the others) for the same reason. The roles and the backend's and coordinator's objectives are the source's own texts.
- The JSON decoder is a partial-function oracle for both the actions array and the route list. JSON numbers are integers, because no property depends on them.
- The UUID generator and the local clock. They are an id parameter and the `Env.clock` oracle.
- The coordinator's agent list holds only query, sentiment and escalation agents. `add_agent` is private and only `create_agents` calls it, so the backend developer, the intent agent and the feedback agent are never registered. The intent agent is modelled on its own. The backend receives the case read-only, as an input it never returns, because it never writes the case.
- Request.Escape: it renders only backslash, double quote, newline, carriage return, tab and NUL as escapes. Rust's Debug format also escapes other control and non-printable characters, and that is not modelled.
- Backend.TestStep: when bug_count is 255, `bug_count += 1` is a debug-build overflow panic (`BugCountOverflow`). It is unreachable from a new agent because the third failure halts first.
