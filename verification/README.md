# Multi-agent orchestrator: a Dafny model of its core

The system is a small orchestration backend. It keeps a registry of
*agents*, which are HTTP endpoints of three kinds: A2A servers, plain REST
APIs and local agents. A planner turns a natural-language task into a JSON
execution plan with the help of a hosted language model, and stores the task
and one row per plan step. An executor walks those rows in step-number
order. It sends each step to its agent and records the outcome, stopping at
the first step that raises. A memory service keeps conversation sessions,
their messages and per-agent memories that may expire.

A registration service seeds four built-in *configuration templates*
(CrewAI, Databricks foundation models, OpenAI-compatible, custom REST). Each
template says how to build a provider's request body from a task (a mapping
whose `$.` strings are JSONPath placeholders) and where the answer sits in
the reply (a result path). The service can register an agent from a
template and test a connection to an endpoint. Three dummy provider servers
(OpenAI-compatible, Databricks, CrewAI) answer in those providers' formats,
and each has a generic `/process` endpoint for the orchestrator.

The model works as follows:

- Database tables are Dafny sequences held by classes. `TaskTables`,
  `AgentRegistry`, `MemoryStore` and `TemplateStore` have methods that
  change them in place. Each method states its whole new state in terms of
  specification functions on the old state, and those functions carry the
  proved properties.
- Row ids are positions plus one, because rows are never deleted. Agent
  memories are the exception: cleanup deletes them, so they carry their own
  ids.
- JSON is a datatype. Dicts are sequences of pairs, so they keep Python's
  insertion order.
- Exceptions are `Err` results. An HTTP endpoint's answer is
  `Served(body)` or `Refused(status, detail)`.
- The following become parameters of the operations that use them:
  - the language model's reply;
  - every outbound HTTP call;
  - the clock;
  - uuid hex digits;
  - the canned reply texts of the dummy servers;
  - Python's `str()` on non-string values.

## Model

| member | source | states |
|---|---|---|
| AgentModel.ParseAgentType | backend/models/agent.py:6-9 | a stored value parses to the one type whose value it is, and to nothing when no type has it |
| AgentModel.AgentTypesExact | backend/models/agent.py:6-9 | there are exactly three agent types with pairwise distinct values, and parsing a type's value gives the type back |
| AgentModel.ParseAgentStatus | backend/models/agent.py:11-14 | a stored value parses to the one status whose value it is, and to nothing otherwise |
| AgentModel.AgentStatusesExact | backend/models/agent.py:11-14 | exactly three statuses with distinct values, and parsing a status's value gives it back |
| AgentModel.FindAgent | backend/services/agent_registry.py:50-53 | an agent is found exactly when some row has the id, and the row found has that id |
| TaskModel.TaskStatusesExact | backend/models/task.py:6-12 | exactly six task statuses with pairwise distinct values |
| TaskModel.StepsOfMembers | backend/orchestrator/task_executor.py:36-37 | the filter by task id keeps exactly the rows of that task |
| TaskModel.OrderByStepNumberCorrect | backend/orchestrator/task_executor.py:36-38 | ordering by step number is sorted, is a permutation of its input, and keeps row ids distinct |
| TaskModel.TaskTables.constructor | backend/models/task.py:14-42 | both tables start empty and well formed |
| TaskModel.TaskTables.AddTask | backend/orchestrator/task_planner.py:141-143 | a task row with the next id is appended, the step table is unchanged, and ids stay positions plus one |
| TaskModel.TaskTables.AddStep | backend/orchestrator/task_planner.py:146-157 | a step row with the next id, for an existing task, is appended and the task table is unchanged |
| TaskModel.TaskTables.SaveStep | backend/orchestrator/task_executor.py:51-60 | exactly the step row with that id is replaced and the task table is unchanged |
| TaskModel.TaskTables.SaveTask | backend/orchestrator/task_executor.py:31-33 | exactly the task row with that id is replaced and the step table is unchanged |
| Registry.UpdatesKeepIdentity | backend/services/agent_registry.py:82-84 | no sequence of updates changes an agent's id or creation time, and skipped keys change nothing |
| Registry.HealthOutcome | backend/services/agent_registry.py:108-135 | the agent becomes ACTIVE exactly when the report is healthy, which is exactly a 200 with a JSON body; any other status code is unhealthy; the status never becomes INACTIVE |
| Registry.StatusCountsPartition | backend/services/agent_registry.py:152-155 | the active, inactive and error counts add up to the number of agents |
| Registry.TypeCountsPartition | backend/services/agent_registry.py:157-160 | the counts per agent type add up to the number of agents |
| Registry.Stats | backend/services/agent_registry.py:149-168 | the total is the table size; each status count is the number of agents listed under that status filter; `by_type` lists every type once, in declaration order, with the number listed under that type filter; the status counts and the type counts each sum to the total |
| Registry.CountStatusListed | backend/services/agent_registry.py:153-155 | counting the agents with a status gives as many as listing them with that status filter |
| Registry.CountTypeListed | backend/services/agent_registry.py:158-160 | counting the agents of a type gives as many as listing them with that type filter |
| Registry.ListFrom | backend/services/agent_registry.py:60-73 | an agent is listed exactly when it passes every filter that is given |
| Registry.ListWithoutFilters | backend/services/agent_registry.py:65-73 | without filters the listing is the whole table in table order |
| Registry.ListFiltersCompose | backend/services/agent_registry.py:67-71 | filtering by type and status at once equals filtering by type and then by status |
| Registry.WithCapability | backend/services/agent_registry.py:137-147 | an agent is returned exactly when it is ACTIVE and lists the capability |
| Registry.FindByName | backend/services/agent_registry.py:55-58 | an agent is found exactly when some agent has the name, and it is that agent |
| Registry.SingleStatusUpdate | backend/services/agent_registry.py:91-99 | a status-only update changes only the status and never clashes with another agent's name |
| Registry.AgentRegistry.constructor | backend/services/agent_registry.py:15-16 | the registry starts empty and well formed |
| Registry.AgentRegistry.RegisterAgent | backend/services/agent_registry.py:18-48 | a taken name is an error and changes nothing; otherwise exactly one ACTIVE agent with the next id is appended, with config and metadata defaulting to {} |
| Registry.AgentRegistry.GetAgent | backend/services/agent_registry.py:50-53 | found exactly for an existing id, and the agent found has that id |
| Registry.AgentRegistry.GetAgentByName | backend/services/agent_registry.py:55-58 | found exactly when the name is taken, and the agent found has that name |
| Registry.AgentRegistry.ListAgents | backend/services/agent_registry.py:60-73 | the listing holds exactly the agents passing the given filters |
| Registry.AgentRegistry.FindAgentsByCapability | backend/services/agent_registry.py:137-147 | exactly the ACTIVE agents that list the capability |
| Registry.AgentRegistry.GetAgentStats | backend/services/agent_registry.py:149-168 | the total is the table size; the active, inactive and error counts are the sizes of `list_agents` under those status filters; `by_type` holds each type value in declaration order with the size of `list_agents` under that type filter; the counts sum to the total |
| Registry.AgentRegistry.UpdateAgent | backend/services/agent_registry.py:75-89 | an unknown id is an error and changes nothing; otherwise the items are applied in order to that row alone, and a name clash with another agent is an error that changes nothing |
| Registry.AgentRegistry.DeactivateAgent | backend/services/agent_registry.py:91-94 | an unknown id is an error; otherwise only that agent's status changes, to INACTIVE |
| Registry.AgentRegistry.ActivateAgent | backend/services/agent_registry.py:96-99 | an unknown id is an error; otherwise only that agent's status changes, to ACTIVE |
| Registry.AgentRegistry.CheckAgentHealth | backend/services/agent_registry.py:101-135 | an unknown id is reported and changes nothing; otherwise only that agent's status changes, as the probe's outcome dictates |
| MemoryService.MessagesOfChronological | backend/services/memory_service.py:80-82 | a session's messages, filtered from a table in timestamp order, are in timestamp order |
| MemoryService.HistoryNewestFirst | backend/services/memory_service.py:73-82 | the history holds min(limit, n) of the session's n messages, none more often than the session holds it (a sub-multiset), all from that session and newest first; every message left out is no newer than every message returned |
| MemoryService.ExpiryFor | backend/services/memory_service.py:92-94 | a memory gets no expiry exactly when the ttl is absent or 0 |
| MemoryService.ReadMemories | backend/services/memory_service.py:116-130 | a memory is read exactly when its agent and session match, its type matches when a type is given, and it has not expired |
| MemoryService.Unexpired | backend/services/memory_service.py:135-138 | cleanup keeps exactly the memories that are not expired |
| MemoryService.LiveIffNotExpired | backend/services/memory_service.py:124-138 | the read filter "no expiry or later than now" is the exact complement of the cleanup condition |
| MemoryService.CleanupPreservesReads | backend/services/memory_service.py:132-142 | deleting expired memories changes no read made at the same time |
| MemoryService.CleanupCount | backend/services/memory_service.py:135-142 | the deleted count plus the kept count is the old number of memories |
| MemoryService.SavedMemoryLifetime | backend/services/memory_service.py:92-94 | a positive ttl makes a memory readable now and expired ttl hours later; a negative ttl is expired at once; no ttl or 0 never expires |
| MemoryService.SessionIn | backend/services/memory_service.py:36-41 | a session is found exactly when some context has its id, and the context found has it |
| MemoryService.MemoryStore.constructor | backend/services/memory_service.py:15-16 | the store starts with no contexts, messages or memories |
| MemoryService.MemoryStore.GetSession | backend/services/memory_service.py:36-41 | found exactly when some context has the session id |
| MemoryService.MemoryStore.CreateSession | backend/services/memory_service.py:18-34 | one context with the next id, the user and metadata defaulting to {} is appended; a session id already present is an error that adds nothing; messages and memories are unchanged |
| MemoryService.MemoryStore.AddMessage | backend/services/memory_service.py:43-71 | an unknown session is an error that changes nothing; otherwise one message is appended to that context, and only that context's last-update time changes |
| MemoryService.MemoryStore.GetConversationHistory | backend/services/memory_service.py:73-82 | an unknown session gives []; otherwise the session's newest `limit` messages, newest first |
| MemoryService.MemoryStore.SaveAgentMemory | backend/services/memory_service.py:84-108 | exactly one memory is appended, with the expiry `ExpiryFor` gives; contexts and messages are unchanged |
| MemoryService.MemoryStore.GetAgentMemory | backend/services/memory_service.py:110-130 | a stored memory is returned exactly when it is readable by agent, session, optional type and time |
| MemoryService.MemoryStore.CleanupExpiredMemories | backend/services/memory_service.py:132-142 | exactly the expired memories are deleted, their number is returned, and every read at the same time is unchanged |
| MemoryService.MemoryStore.GetContextSummary | backend/services/memory_service.py:144-160 | nothing for an unknown session; otherwise the context's user, times and metadata, and a message count of min(50, the session's messages) |
| Planner.ActiveAgents | backend/orchestrator/task_planner.py:33 | exactly the ACTIVE agents are offered to the planner |
| Planner.NewStepsAt | backend/orchestrator/task_planner.py:146-155 | step row k is plan step k with the k-th next id, PENDING, and of the new task |
| Planner.UpdatesKeepIdentity | backend/orchestrator/task_planner.py:169-171 | the modelled update items never change a task's id or creation time, and keys that name no attribute change nothing |
| Planner.LastStatusWins | backend/orchestrator/task_planner.py:169-171 | a later item for the same attribute wins |
| Planner.PendingStepsOfMembers | backend/orchestrator/task_planner.py:181-183 | the filter keeps exactly the task's PENDING rows |
| Planner.NextSteps | backend/orchestrator/task_planner.py:178-184 | the next steps are sorted by step number and are a permutation of exactly the task's PENDING rows |
| Planner.NoStepsForNewTask | backend/orchestrator/task_planner.py:141-143 | before a task row is added, no step row belongs to it |
| Planner.TaskPlanner.constructor | backend/orchestrator/task_planner.py:21-27 | the planner works on the given tables and registry |
| Planner.TaskPlanner.CreateExecutionPlan | backend/orchestrator/task_planner.py:29-159 | one PLANNING task is appended for the parsed plan, or for the fallback plan when the reply is not JSON; one PENDING step row per plan step follows, in plan order |
| Planner.TaskPlanner.UpdatePlan | backend/orchestrator/task_planner.py:161-176 | an unknown id is an error; otherwise the items are applied in order to that task alone; steps are unchanged |
| Planner.TaskPlanner.GetNextSteps | backend/orchestrator/task_planner.py:178-184 | sorted by step number, holding exactly the task's PENDING rows |
| Planner.PlannedTaskSteps | backend/orchestrator/task_planner.py:131-157 | a freshly planned task's steps are exactly its new rows, in plan order |
| Planner.PlannedTaskPending | backend/orchestrator/task_planner.py:145-157 | a freshly planned task's pending steps are all its new rows |
| Planner.AssignedAgentsMatchSteps | backend/orchestrator/task_planner.py:132-154 | the task's assigned agents are, position by position, the agents of its step rows |
| Planner.FallbackSteps | backend/orchestrator/task_planner.py:114-129 | without a parsable reply there is one PENDING step numbered 1: the whole description, an active agent exactly when one exists, and no dependencies |
| Executor.AgentRequest | backend/orchestrator/task_executor.py:94-100 | an agent is called exactly when it is not a local agent |
| Executor.HttpFailure | backend/orchestrator/task_executor.py:137-142 | an HTTP failure yields the error and status "failed", plus the agent's name for an API agent |
| Executor.StepOutcome | backend/orchestrator/task_executor.py:80-142 | a step raises exactly when its agent is missing or the call raises other than by an HTTP error; a missing agent raises "Agent <id> not found"; a local agent yields the "Unknown agent type: local" dict; an HTTP failure yields a dict with status "failed" |
| Executor.RunFrom | backend/orchestrator/task_executor.py:43-66 | the step loop keeps the step table's size; what it does to results and rows is stated by the three lemmas below |
| Executor.RunFromAppends | backend/orchestrator/task_executor.py:43-66 | the loop only appends results: one per step when it finishes, fewer when it stops |
| Executor.RunFromReturned | backend/orchestrator/task_executor.py:43-66 | every step the loop got through returned its result when handed the results of the steps before it; the loop either finishes or stops at the next step, which raised |
| Executor.RunFromRows | backend/orchestrator/task_executor.py:43-66 | the steps the loop got through are COMPLETED with their results, the step it stopped at is FAILED with the error, and every other row is unchanged |
| Executor.ContextAfterGet | backend/orchestrator/task_executor.py:49 | a later step finds an earlier step's result under `step_<n>`, unless a step in between has the same step number |
| Executor.OrderedSteps | backend/orchestrator/task_executor.py:36-38 | the loop visits exactly the task's rows, sorted by step number, each once |
| Executor.FirstNonDict | backend/orchestrator/task_executor.py:147 | the summary's `r.get` fails exactly when some result is not a dict |
| Executor.SuccessCountExtremes | backend/orchestrator/task_executor.py:147-148 | the success count is the number of results exactly when no result has status "error", and 0 exactly when every result has |
| Executor.Summary | backend/orchestrator/task_executor.py:144-152 | the summary raises exactly when some result is not a dict; otherwise it reads "Completed s/n steps successfully." |
| Executor.Conclude | backend/orchestrator/task_executor.py:68-78 | ending a task changes only its status, result and completion time |
| Executor.Executed | backend/orchestrator/task_executor.py:24-78 | both tables keep their sizes, and every other task row is unchanged |
| Executor.ExecutedOutcome | backend/orchestrator/task_executor.py:24-78 | the steps before the stopping point returned their results and are COMPLETED with them; a step that raises is FAILED, the task FAILED with "Failed at step n: e" (also returned) and later steps untouched; otherwise the task is COMPLETED with all results and their summary; other tasks' steps never change |
| Executor.ExecutedNoSteps | backend/orchestrator/task_executor.py:68-78 | a task without steps completes at once with "Completed 0/0 steps successfully." |
| Executor.ExecutedUnassignedFirst | backend/orchestrator/task_executor.py:57-66 | a task whose first step has no agent stops there: that step and the task are FAILED with "Agent None not found" and no other step changes |
| Executor.ExecutedLocalFirst | backend/orchestrator/task_executor.py:94-100 | a first step assigned to a local agent does not stop the task: it is COMPLETED with the "Unknown agent type: local" dict |
| Executor.TaskExecutor.constructor | backend/orchestrator/task_executor.py:20-22 | the executor works on the given tables and registry |
| Executor.TaskExecutor.RunStep | backend/orchestrator/task_executor.py:44-66 | one step runs; the run from it equals the run from the next step with the new state, or it stops with the step FAILED |
| Executor.TaskExecutor.RunSteps | backend/orchestrator/task_executor.py:43-66 | the loop leaves exactly the step table `RunFrom` specifies and changes no task |
| Executor.TaskExecutor.ExecuteTask | backend/orchestrator/task_executor.py:24-78 | the result and both tables are those `Executed` specifies: unknown ids are reported, the first raising step fails the task, otherwise the task completes with its results and summary |
| Executor.TaskExecutor.CancelTask | backend/orchestrator/task_executor.py:154-167 | an unknown id is reported; otherwise only that task's status changes, to CANCELLED |
| RegistrationService.SeedOne | backend/services/agent_registration_service.py:24-30 | a template whose name is taken is skipped; otherwise it is appended with the next id |
| RegistrationService.SeedProperties | backend/services/agent_registration_service.py:21-32 | seeding keeps every existing row, keeps ids and names unique, adds only built-in active rows, and leaves every seeded name present |
| RegistrationService.SeedIdempotent | backend/services/agent_registration_service.py:21-32 | seeding twice is seeding once |
| RegistrationService.SeedFresh | backend/services/agent_registration_service.py:23-30 | templates with new, distinct names are appended one row each, in order |
| RegistrationService.SeedEmpty | backend/services/agent_registration_service.py:21-32 | an empty table seeds to exactly the four built-ins with ids 1 to 4 |
| RegistrationService.ActiveSummariesMembers | backend/services/agent_registration_service.py:34-52 | a summary is listed exactly when some active template has it |
| RegistrationService.FindTemplate | backend/services/agent_registration_service.py:54-58 | found exactly when some row has the id |
| RegistrationService.FindTemplateByName | backend/services/agent_registration_service.py:60-64 | found exactly when some row has the name |
| RegistrationService.TemplateAgentConfig | backend/services/agent_registration_service.py:183-190 | the five config keys in order; a non-empty custom config supplies both mappings, otherwise the template does; a truthy auth config overrides the template's |
| RegistrationService.TemplateStore.constructor | backend/services/agent_registration_service.py:18-19 | the store starts with no templates |
| RegistrationService.TemplateStore.InitializeTemplates | backend/services/agent_registration_service.py:21-32 | the table becomes the built-ins seeded into it |
| RegistrationService.TemplateStore.AddTemplates | backend/services/agent_registration_service.py:23-30 | the loop seeds the given templates in order |
| RegistrationService.TemplateStore.AddUnlessNamed | backend/services/agent_registration_service.py:24-30 | one template is added unless its name is present |
| RegistrationService.TemplateStore.ListTemplates | backend/services/agent_registration_service.py:34-52 | exactly the summaries of active templates |
| RegistrationService.TemplateStore.GetTemplate | backend/services/agent_registration_service.py:54-58 | found exactly for an existing id |
| RegistrationService.TemplateStore.GetTemplateByName | backend/services/agent_registration_service.py:60-64 | found exactly when the name is present |
| RegistrationService.TemplateStore.RegisterAgentWithTemplate | backend/services/agent_registration_service.py:160-211 | a taken name, then a missing template, is an error that changes nothing; otherwise one ACTIVE API agent is appended with the merged config and the template's name and framework as metadata |
| RegistrationService.PrepareRequest | backend/services/agent_registration_service.py:76-97 | the method defaults to POST; only POST and GET are sent, and only POST carries a body |
| RegistrationService.EmptyConfigRequest | backend/services/agent_registration_service.py:78-97 | with no mappings the test POSTs {} to `<endpoint>/process` |
| RegistrationService.AuthHeadersOverride | backend/services/agent_registration_service.py:84-88 | each given auth header wins over the template's, and the others stay |
| RegistrationService.ConnectionOutcome | backend/services/agent_registration_service.py:99-158 | success exactly for a sent request answered by a 2xx with a JSON body; an unextractable result only adds a warning; a non-2xx reports its status code; other methods are unsupported |
| RequestMapping.Lookup | backend/services/agent_registration_service.py:224-231 | a placeholder fails exactly when it does not parse, and otherwise gives its first match, or null when nothing matches |
| RequestMapping.BuildValue | backend/services/agent_registration_service.py:223-243 | a value that is neither a placeholder nor a container is copied |
| RequestMapping.BuildFields | backend/services/agent_registration_service.py:223-234 | a built dict has the mapping's keys in the mapping's order |
| RequestMapping.BuildItems | backend/services/agent_registration_service.py:235-240 | a built list has as many items as the mapping's list, with its non-dict items copied; a dict item that fails reports its own error before any later item is looked at, as the list comprehension raises at the first failing item |
| RequestMapping.BuildRequestBody | backend/services/agent_registration_service.py:213-245 | a mapping that is not a dict raises; a built body is a dict with the mapping's keys in order |
| RequestMapping.BodyEntries | backend/services/agent_registration_service.py:223-243 | entry by entry, a placeholder becomes its lookup and a plain value is copied, under the same key |
| RequestMapping.ExtractResponseData | backend/services/agent_registration_service.py:247-265 | the result path defaults to `$.result`; a mapping that is not a dict raises |
| RequestMapping.ExtractAt | backend/services/agent_registration_service.py:255-265 | it fails exactly when the path does not parse; otherwise the first match is returned when there is one, else the whole reply to be dumped |
| RequestMapping.DefaultResultPath | backend/services/agent_registration_service.py:255-265 | the default path picks the reply's `result` member when there is one, else the whole reply |
| RequestMapping.JoinUrlSeam | backend/services/agent_registration_service.py:97 | exactly one slash joins endpoint and path: extra slashes at the seam change nothing |
| RequestMapping.RStripIdempotent | backend/services/agent_registration_service.py:97 | stripping trailing slashes twice is stripping once |
| JsonPath.Parse | backend/services/agent_registration_service.py:226 | a parsed path is a valid path: every member name is an identifier as jsonpath_ng lexes one (a letter, `_` or `@`, then letters, digits, `_`, `@` or `-`) |
| JsonPath.ParseRejectsOtherCharacters | backend/services/agent_registration_service.py:226 | a path that parses starts with `$.` and holds only name characters, dots and brackets after it, so `$.*`, `$.a,b`, `$.'x'` and `$.a b` are parse errors |
| JsonPath.ParseRender | backend/services/agent_registration_service.py:258 | parsing undoes rendering for every valid path |
| JsonPath.SegmentRoundTrip | backend/services/agent_registration_service.py:258 | each rendered segment parses back to itself and holds no dot |
| JsonPath.FieldPath | backend/services/agent_registration_service.py:226-227 | `$.n` parses as the one member n |
| JsonPath.FindField | backend/services/agent_registration_service.py:227 | a one-member path finds the member |
| JsonPath.FindAppend | backend/services/agent_registration_service.py:259 | following a path in two parts is following it whole |
| JsonData.PutGet | backend/orchestrator/task_executor.py:49 | after `d[key] = v` the key reads v and every other key reads as before |
| JsonData.UpdateGet | backend/services/agent_registration_service.py:87-88 | after `d.update(other)` a key reads as in other if there, else as before |
| JsonData.OrEmpty | backend/services/agent_registry.py:39-41 | a truthy dict is kept, anything else becomes {} |
| Strings.RStrip | backend/services/agent_registration_service.py:97 | exactly the trailing occurrences of the character are removed |
| Strings.LStrip | backend/services/agent_registration_service.py:97 | exactly the leading occurrences of the character are removed |
| Strings.WordCountIsWordStarts | backend/dummy_agents/openai_compatible_agent_server.py:167-169 | `len(s.split())` equals the reference count of word starts |
| Strings.WordCountAppend | backend/dummy_agents/openai_compatible_agent_server.py:167 | joining two texts with a space adds their word counts |
| Strings.NatToStringDigits | backend/orchestrator/task_executor.py:150 | a count renders as digits with no leading zero |
| Strings.IntToStringInjective | backend/services/agent_registry.py:80 | distinct ids render to distinct texts |
| Seqs.Take | backend/services/memory_service.py:82 | `LIMIT n` keeps the first min(n, size) rows |
| Seqs.FilterKeepsOrder | backend/services/memory_service.py:80-82 | a filter keeps the relative order of the rows |
| TemplateModel.NewTemplate | backend/models/agent_config_template.py:9-37 | a new row is built in and active, has no icon, and carries the template's name, framework, mappings and auth config |
| TemplateModel.BuiltinNames | backend/models/agent_config_template.py:41-216 | four built-ins, named crewai, databricks_foundation, openai_compatible and custom, all distinct |
| TemplateModel.BuiltinMethodsArePost | backend/models/agent_config_template.py:41-216 | every built-in request mapping uses POST |
| TemplateModel.DescriptionPath | backend/services/agent_registration_service.py:91-94 | `$.description` looks up the task description |
| TemplateModel.CrewAIBody | backend/models/agent_config_template.py:53-57 | the CrewAI body is `{"inputs": {"topic": d}}` |
| TemplateModel.CustomBody | backend/models/agent_config_template.py:196-198 | the custom body is `{"query": d}` |
| TemplateModel.DatabricksBody | backend/models/agent_config_template.py:90-99 | the Databricks body is one user message carrying d, with the sampling entries copied |
| TemplateModel.OpenAIBody | backend/models/agent_config_template.py:143-153 | the OpenAI-compatible body names the model and otherwise matches the Databricks one |
| TemplateModel.ChatPathParses | backend/models/agent_config_template.py:103 | `$.choices[0].message.content` parses into its three segments |
| TemplateModel.ChatPathFinds | backend/models/agent_config_template.py:101-105 | the chat result path finds the content of the first choice's message |
| TemplateModel.ChatResultPath | backend/models/agent_config_template.py:155-158 | the chat response mapping extracts the first choice's content |
| TemplateModel.CrewAIExampleResult | backend/models/agent_config_template.py:59-76 | the CrewAI result path picks the answer from its example response |
| TemplateModel.CustomExampleResult | backend/models/agent_config_template.py:200-214 | the custom result path picks the answer from its example response |
| TemplateModel.DatabricksExampleResult | backend/models/agent_config_template.py:101-129 | the Databricks result path picks the answer from its example response |
| TemplateModel.OpenAIExampleResult | backend/models/agent_config_template.py:155-183 | the OpenAI-compatible result path picks the answer from its example response |
| ProviderChat.AuthorizationAccepted | backend/dummy_agents/openai_compatible_agent_server.py:111-112 | a header is let through exactly when it is absent, empty or `Bearer ` followed by a token |
| ProviderChat.CheckAuthorization | backend/dummy_agents/openai_compatible_agent_server.py:102-112 | a header is refused with 401 exactly when rejected and passed otherwise; the `Header(None)` default marker is always a 500 |
| ProviderChat.SamplingTextRejected | backend/dummy_agents/openai_compatible_agent_server.py:33-43 | a sampling field holding text fails validation, as `"max_tokens": "many"` does |
| ProviderChat.QueryIffUserMessage | backend/dummy_agents/openai_compatible_agent_server.py:116-118 | there is a query exactly when some message has the role "user" |
| ProviderChat.LastUserAt | backend/dummy_agents/openai_compatible_agent_server.py:116-120 | the query is the content of the last user message |
| ProviderChat.LastUserIndex | backend/dummy_agents/openai_compatible_agent_server.py:116-120 | a query comes from a user message after which no user message follows |
| ProviderChat.SumWordsIsConversationWords | backend/dummy_agents/openai_compatible_agent_server.py:167 | the prompt count, message by message, is the word count of the whole conversation |
| ProviderChat.QueryWordsWithin | backend/dummy_agents/openai_compatible_agent_server.py:166-170 | the query's words never exceed the conversation's prompt count |
| ProviderChat.FirstTruthy | backend/dummy_agents/openai_compatible_agent_server.py:229 | the first truthy of the first two keys, else the third key's value or the default |
| ProviderChat.CompletionBodyMembers | backend/dummy_agents/openai_compatible_agent_server.py:151-171 | a completion body's model, choices and usage read back as built |
| ProviderChat.UsageMembers | backend/dummy_agents/openai_compatible_agent_server.py:166-170 | the usage holds the prompt count, the completion count and their sum |
| ProviderChat.ChatReplyExtracted | backend/dummy_agents/openai_compatible_agent_server.py:151-171 | the chat templates' response mapping extracts the assistant's text from a chat completion |
| ProviderChat.WrapChatCompletion | backend/dummy_agents/openai_compatible_agent_server.py:241-252 | a served chat completion becomes a success carrying its text, model and usage |
| ProviderChat.GenericReplyMembers | backend/dummy_agents/openai_compatible_agent_server.py:244-252 | a generic reply reports success, and the orchestrator's default result path finds its text |
| OpenAIServer.ChatRequestOf | backend/dummy_agents/openai_compatible_agent_server.py:29-43 | a body validates exactly when its messages are valid, every sampling field present has its declared type, and the model is absent, null or a string; a valid request carries the body's messages, and the model defaults to gpt-3.5-turbo when absent |
| OpenAIServer.LegacyRequestOf | backend/dummy_agents/openai_compatible_agent_server.py:45-53 | a legacy body validates exactly when its prompt is a string, every sampling field present has its declared type, and the model is absent, null or a string; the model defaults to text-davinci-003 |
| OpenAIServer.ChatCompletion | backend/dummy_agents/openai_compatible_agent_server.py:101-174 | 401 exactly for a rejected header; 500 exactly when no message is the user's; otherwise served |
| OpenAIServer.ChatCompletionBody | backend/dummy_agents/openai_compatible_agent_server.py:120-171 | the response answers the last user message, echoes the model and counts every message's words as the prompt |
| OpenAIServer.ChatCompletionServed | backend/dummy_agents/openai_compatible_agent_server.py:150-171 | the reply is served, echoes the model, counts the conversation's words, and the chat result path reads the reply |
| OpenAIServer.TextCompletionMembers | backend/dummy_agents/openai_compatible_agent_server.py:198-216 | a legacy body's text sits at `choices[0].text`, with the model and usage |
| OpenAIServer.CompletionServed | backend/dummy_agents/openai_compatible_agent_server.py:176-216 | every legacy request is served: the completion of the prompt, the model echoed, the prompt's and completion's words as usage |
| OpenAIServer.ProcessGeneric | backend/dummy_agents/openai_compatible_agent_server.py:221-252 | a query that is not a string, or a `max_tokens` or `temperature` of the wrong type, is a 500 |
| OpenAIServer.GenericChatServed | backend/dummy_agents/openai_compatible_agent_server.py:231-239 | the generic chat request is always served, with the query's words as the prompt |
| OpenAIServer.ProcessGenericAnswers | backend/dummy_agents/openai_compatible_agent_server.py:221-252 | a string query with valid sampling fields is answered with success, the reply to it, gpt-3.5-turbo and the query's word usage |
| OpenAIServer.ChatCompletionCalled | backend/dummy_agents/openai_compatible_agent_server.py:102-112 | with a header argument it is the chat completion; with the default marker it is a 500 |
| OpenAIServer.ProcessGenericAsWrittenRefuses | backend/dummy_agents/openai_compatible_agent_server.py:239 | as written every generic request is a 500, unlike every request the corrected endpoint answers |
| OpenAIServer.TemplateBodyMessages | backend/dummy_agents/openai_compatible_agent_server.py:29-35 | the template body's messages validate as the one user message |
| OpenAIServer.TemplateBodyValidates | backend/dummy_agents/openai_compatible_agent_server.py:33-43 | the template body validates as the generic chat request |
| OpenAIServer.TemplateRequest | backend/models/agent_config_template.py:136-153 | the OpenAI-compatible template builds the body that validates as the generic chat request |
| OpenAIServer.TemplateRoundTrip | backend/models/agent_config_template.py:136-158 | the template's request is served and its response mapping reads back the reply to the description |
| DatabricksServer.DatabricksRequestOf | backend/dummy_agents/databricks_agent_server.py:28-37 | a body validates exactly when its messages are valid and every sampling field present has its declared type, and it carries the messages |
| DatabricksServer.InvokeModel | backend/dummy_agents/databricks_agent_server.py:82-147 | 401 exactly for a rejected header; 500 exactly when no message is the user's; otherwise served |
| DatabricksServer.InvokeModelBody | backend/dummy_agents/databricks_agent_server.py:97-144 | the response answers the last user message as llama-2-70b-chat, counting only that message's words as the prompt |
| DatabricksServer.InvocationMembers | backend/dummy_agents/databricks_agent_server.py:124-144 | the model, the choices and the usage read back, and the chat result path finds the text |
| DatabricksServer.PromptNotAboveConversation | backend/dummy_agents/databricks_agent_server.py:140 | the prompt count never exceeds the whole-conversation count the OpenAI-compatible server gives |
| DatabricksServer.ProcessGeneric | backend/dummy_agents/databricks_agent_server.py:149-179 | a query that is not a string, or a `max_tokens` or `temperature` of the wrong type, is a 500 |
| DatabricksServer.ProcessGenericAnswers | backend/dummy_agents/databricks_agent_server.py:149-179 | a string query with valid sampling fields is answered with success, the reply to it, llama-2-70b-chat and the query's word usage |
| DatabricksServer.InvokeModelCalled | backend/dummy_agents/databricks_agent_server.py:83-94 | with a header argument it is the invocation; with the default marker it is a 500 |
| DatabricksServer.ProcessGenericAsWrittenRefuses | backend/dummy_agents/databricks_agent_server.py:166 | as written every generic request is a 500, unlike every request the corrected endpoint answers |
| DatabricksServer.TemplateBodyValidates | backend/dummy_agents/databricks_agent_server.py:32-37 | the template body validates as the one-message invocation |
| DatabricksServer.TemplateRoundTrip | backend/models/agent_config_template.py:83-105 | the Databricks template's body is the one-message invocation, it is served, and its response mapping reads back the reply |
| CrewAIServer.CrewAIRequestOf | backend/dummy_agents/crewai_agent_server.py:28-30 | a body validates exactly when `inputs` is a dict and `config` is absent, null or a dict |
| CrewAIServer.Topic | backend/dummy_agents/crewai_agent_server.py:83 | a present `topic` wins, else a present `query`, else "general query" |
| CrewAIServer.OutputNamesTopic | backend/dummy_agents/crewai_agent_server.py:89-121 | every member's output names the topic right after its opening words |
| CrewAIServer.ReportNamesTopicTwice | backend/dummy_agents/crewai_agent_server.py:114-116 | the writer's report names the topic again after the bridge sentence |
| CrewAIServer.EntryMembers | backend/dummy_agents/crewai_agent_server.py:89-121 | an entry reads back its agent, task and output |
| CrewAIServer.Workflow | backend/dummy_agents/crewai_agent_server.py:86-121 | three entries, one per crew member in order, each with its agent and output |
| CrewAIServer.KickoffCrew | backend/dummy_agents/crewai_agent_server.py:74-137 | the response is the kickoff response for the request's inputs |
| CrewAIServer.KickoffMembers | backend/dummy_agents/crewai_agent_server.py:124-134 | success is true, the workflow is the three entries, and the result is the last entry's output, the writer's report |
| CrewAIServer.AgentsUsedMatchWorkflow | backend/dummy_agents/crewai_agent_server.py:126-129 | `agents_used` lists the workflow's agents in the same order |
| CrewAIServer.ProcessGeneric | backend/dummy_agents/crewai_agent_server.py:139-156 | a kickoff on `{"topic": topic}`, whose result is the writer's report on it |
| CrewAIServer.TemplateRoundTrip | backend/models/agent_config_template.py:47-63 | the CrewAI template's body is a valid kickoff on the description, and its response mapping reads back the writer's report |

## Left out

- Persistence is not modelled: the database, sessions, commits and refreshes. Tables are sequences. Unique columns are checked before the write, and a clash is an `Err` that changes nothing.
- The async machinery is not modelled: coroutines, `httpx` clients and timeouts. Each outbound call is a function parameter returning its outcome. The executor's A2A handler cache and its `cleanup` are left out; they only open and close clients.
- The language-model call in the planner is left out. Its prompt text is not modelled; the reply is a parameter, either a parsed plan or text that is not JSON.
- The clock, uuids, canned texts and `str()` are parameters:
  - the clock is an integer number of seconds;
  - uuid hex digits are a string parameter;
  - each dummy server's canned reply text is a function of the query;
  - Python's `str()`/`json.dumps` of a JSON value is a parameter or the `DumpOf` marker.
- `RequestMapping.ExtractAt` returns the whole reply as `DumpOf(response)`; the JSON text `json.dumps` would produce is not modelled.
- Planner.UpdatesKeepIdentity: `update_plan` sets any attribute the task has, `id` and `created_at` included; the model has no update item for those two, so the lemma says nothing about such an update.
- Planner.TaskPlanner.CreateExecutionPlan: a parsed reply is assumed to have the expected shape. A reply without `"steps"`, or with a step lacking `"agent_id"`, raises KeyError before the task row is written (task_planner.py:137); a step lacking `"step_number"` or `"description"` raises after the task row was committed (task_planner.py:141-150), leaving a task without its steps. Neither path is modelled, and `agentId: Option<int>` does not tell a null `agent_id` from a missing one.
- Executor.StepOutcome: the "Unknown agent type: local" text is how Python before 3.11 formats the `str`-mixin enum in the f-string at task_executor.py:100; from Python 3.11 on the text reads "Unknown agent type: AgentType.LOCAL". The same holds for Executor.ExecutedLocalFirst.
- RegistrationService.PrepareRequest and RegistrationService.TestAgentConnection: the messages "request mapping is not a dict", "headers are not a dict", "path is not a string" and "response body is not JSON" are stand-ins. Python reports its own AttributeError, TypeError or JSONDecodeError text there, and that text is what follows "Test failed: ".
- JsonPath.Parse: it covers `$.name(.name)*`, where each name may carry one `[digits]` index. That is every form the templates use, and each is read as jsonpath_ng reads it. jsonpath_ng also accepts wildcards, unions, quoted names, slices, negative indexes, filters, `..`, and blanks between tokens; the model reports all of these as parse errors. jsonpath_ng's reserved words (`where`, `when` and the like), which it refuses as member names, are accepted.
- JsonPath.Find: an `[index]` applied to anything but a list finds nothing. jsonpath_ng, depending on its version, indexes a string by character and raises on a non-empty dict.
- Request validation by the web framework (a 422 for a malformed body) is a `None` from the `...RequestOf` functions. The sampling fields (`max_tokens`, `temperature`, `top_p`, `n`, `stream`, `stop`, penalties) are type-checked and then dropped, since no endpoint reads them.
- ProviderChat.KindAccepts: pydantic's coercion of text into numbers and booleans (`"100"`, `"0.5"`, `"true"`) is not modelled. Such values are rejected, so `ChatRequestOf`, `DatabricksRequestOf` and both `ProcessGeneric` functions refuse some requests the source accepts; so does `OpenAIServer.LegacyRequestOf`.
- The static endpoints are not modelled: `/health`, `/capabilities`, `/v1/models` and `/api/2.0/serving-endpoints`, in all three servers. They return constant documents.
- `CrewAIServer.KickoffCrew`: the `except` that turns an exception into a 500 is not modelled. Nothing in the body can raise once `inputs` has been validated as a dict.
- `OpenAIServer.CompletionServed` covers `total_tokens` only through `ProviderChat.UsageMembers`.
- `MemoryService.MemoryStore.AddMessage`: it requires that the clock has not gone back since the last message. This is what makes newest-first history the reverse of insertion order.
- `Registry.AgentRegistry.RegisterAgent`, `MemoryService.MemoryStore.CreateSession`, `MemoryService.MemoryStore.AddMessage` and `Planner.TaskPlanner.CreateExecutionPlan`: each stores the metadata it is given (default `{}`) as the row's metadata.
  - The source passes it as the `metadata=` keyword, while the column is `meta_data`.
  - `register_agent_with_template` uses `meta_data=`.
  - How the ORM treats the reserved `metadata` name is not modelled.
- `Planner.TaskPlanner.UpdatePlan`: the update items cover the task's data attributes. Assigning the primary key or the `created_at`/`updated_at` columns through `update_plan` is not modelled.
- `RegistrationService.PrepareRequest`: the auth headers are merged into a copy. The source's `headers.update` also changes the template configuration dict it was handed.
- `DatabricksServer.TemplateRoundTrip`: it is about the body and the extraction only. The template's path `/serving-endpoints/{model_name}/invocations` keeps its `{model_name}` placeholder unsubstituted when the URL is joined.
- `backend/main.py`, the A2A server, the LangGraph agent and the frontend are not part of this model.

## Findings

| source | as written | input that shows it | evidently intended | confidence | as-written member | corrected member |
|---|---|---|---|---|---|---|
| backend/dummy_agents/openai_compatible_agent_server.py:239 | `process_generic` calls `create_chat_completion` without `authorization`, so the parameter holds the truthy `Header(None)` marker and `.startswith` raises: every `/process` call is a 500 | `{"description": "What is AI?"}` | the call behaves as one with no Authorization header, and the query is answered | high (not executed) | OpenAIServer.ProcessGenericAsWrittenRefuses | OpenAIServer.ProcessGenericAnswers |
| backend/dummy_agents/databricks_agent_server.py:166 | `process_generic` calls `invoke_model` without `authorization`, with the same effect: every `/process` call is a 500 | `{"description": "What is AI?"}` | the call behaves as one with no Authorization header, and the query is answered | high (not executed) | DatabricksServer.ProcessGenericAsWrittenRefuses | DatabricksServer.ProcessGenericAnswers |
