# mairie-radar core, modelled in Dafny

Mairie Radar collects French municipal budget documents and analyses them. This
project models the parts of its Python backend that are actual logic:

- **The agent layer** (`agents.dfy`, module `Agents`):
  - The message and task-result records and their `to_dict` forms.
  - The state every agent carries (`BaseAgent`).
  - The **coordinator**. It registers agents with their capabilities and routes each task of a workflow to the first idle agent offering the task's capability. It records the tasks dispatched and stops the workflow at the first task it cannot dispatch, which marks it failed.
  - The **agent registry**.
- **The test agent** (`test_agent.dfy`, module `TestAgents`). It is backed by a Google chat model and answers `chat` and `analyze_text` requests. From an analysis reply it extracts up to five "insights": lines that are bulleted or mention an insight or something important, with the bullets and surrounding whitespace removed.
- **The ETL pipeline** (`etl.dfy`, module `Etl`). It runs every collector, validates each collected document against the validator chain (stopping at the first rejection), and hands the valid documents to every loader. Every stage failure becomes an error string, and the run always returns its counters.
- **The RAG pipeline** (`rag.dfy`, module `Rag`):
  - One query runs retrieve, then an optional rerank, then generate, then confidence estimation, and lets a failure through.
  - A batch turns each failed query into an error response.
- **The settings decisions** (`config.dfy`, module `Config`): the LLM provider is chosen by key priority Google, then OpenAI, then Anthropic; and the vector-store configuration.
- **Shared modules**:
  - `values.dfy`: Python values as a datatype, with `str()`, type names and hashability.
  - `ordered_dict.dfy`: insertion-ordered dictionaries.
  - `text.dfy`: `strip`, `lstrip`, `split`, `lower` and `in`.
  - `wrappers.dfy`: `Option` and `Result`.

Stateful objects are classes: the coordinator, the workflow record it updates in place, `BaseAgent`, the registry, the ETL pipeline and the test agent. A method that returns `Failure(e)` models a call that raises `e` to its caller. Each method is proved against a specification function:

- the coordinator's routing against `FirstCapable`, `Dispatch` and `Route`;
- `ETLPipeline.Run` against `RunSpec`;
- `BatchQuery` against `Query`;
- `ExtractInsights` against `Insights`.

The lemmas beside these functions state what the source promises. Outside calls are parameters:

- the clock, fresh uuids and elapsed times;
- the chat model's `ainvoke`;
- the collectors, validators, loaders, retrievers and generators.

The test agent imports `BaseAgent`, `Message` and `TaskResult` from `backend/agents/base.py`, which is not part of this model. The agent records modelled here are those of `maire/maire/agents/base.py`. The ETL and RAG files exist twice in the repository with identical text (`backend/...` and `maire/maire/...`). Each is modelled once and cited by its `backend/` path.

## Model

| member | source | states |
|---|---|---|
| Agents.ParseMessageType | maire/maire/agents/base.py:21-27 | a string parses to exactly the message type whose value it is |
| Agents.MessageToDict | maire/maire/agents/base.py:50-60 | the dictionary has exactly the seven keys, each holding its field (type as its value string, absent correlation id as None) |
| Agents.MessageRoundTrip | maire/maire/agents/base.py:50-60 | reading back `to_dict` gives the same message: nothing is lost |
| Agents.TaskResultToDict | maire/maire/agents/base.py:85-95 | the dictionary has exactly the seven result keys |
| Agents.TaskResultRoundTrip | maire/maire/agents/base.py:85-95 | reading back `to_dict` gives the same task result |
| Agents.BaseAgent.constructor | maire/maire/agents/base.py:101-105 | a new agent keeps its id and name, is idle and has no capability |
| Agents.BaseAgent.AddCapability | maire/maire/agents/base.py:186-188 | the capability is appended at the end, duplicates kept |
| Agents.RegisterReplaces | maire/maire/agents/base.py:205-211 | registering gives the agent exactly the new entry, keeps keys unique, leaves other agents alone, and adds the id at the end only if it was new |
| Agents.ScanCapabilities | maire/maire/agents/base.py:217-220 | the inner loop over one agent's capabilities computes exactly the scan: true at the first matching capability of an idle agent, the error at the first item without a name, false otherwise |
| Agents.ScanWellTyped | maire/maire/agents/base.py:217-220 | over capability objects the inner scan cannot fail and is true exactly when the agent is idle and offers the capability |
| Agents.ScanFound | maire/maire/agents/base.py:217-220 | a scan that answers true means the agent is idle and offers the capability |
| Agents.FirstCapableServes | maire/maire/agents/base.py:214-221 | an agent returned by the search is registered, idle and offers the capability |
| Agents.FirstCapableIsEarliest | maire/maire/agents/base.py:214-221 | with well-typed registrations the search never fails, returns nobody exactly when no agent can serve, and otherwise the earliest registered agent that can |
| Agents.ScanNeedsString | maire/maire/agents/base.py:217-218 | a capability name is a string, so scanning for anything else never answers true |
| Agents.FirstCapableNeedsString | maire/maire/agents/base.py:214-221 | searching for a capability that is not a string finds nobody, unless a scan raises |
| Agents.FirstCapableErrorNonEmpty | maire/maire/agents/base.py:216-218 | the error raised while reading a non-capability's `name` is never empty |
| Agents.DispatchIff | maire/maire/agents/base.py:238-259 | a task is recorded exactly when it is a dictionary with a hashable id whose capability finds a non-empty agent id; the record names that agent; otherwise the error is non-empty |
| Agents.WorkflowRecordNotDispatched | maire/maire/agents/base.py:238-243 | a workflow record used as a task has no `capability`, so it stops the workflow with the scan's error or "No agent found for capability: None" |
| Agents.RouteCompletesIff | maire/maire/agents/base.py:238-262 | a workflow completes exactly when every one of its tasks is dispatched |
| Agents.RouteFailsFast | maire/maire/agents/base.py:238-243 | a workflow stopping at task i keeps exactly the results of the tasks before i, and its error is task i's |
| Agents.RouteIgnoresRest | maire/maire/agents/base.py:238-243 | the tasks after the first failing one have no effect on the workflow |
| Agents.RouteLeavesOtherKeys | maire/maire/agents/base.py:255-259 | entries under ids no dispatched task uses are left as they were |
| Agents.RouteRecordsTask | maire/maire/agents/base.py:255-259 | after a completed workflow, each task id holds the completion record of the last task with that id |
| Agents.Workflow.constructor | maire/maire/agents/base.py:227-233 | a new workflow record is running, has no results, no end time and no error |
| Agents.CoordinatorCapabilities | maire/maire/agents/base.py:332-347 | the coordinator offers exactly two capabilities, `orchestrate_workflow` then `agent_registry` |
| Agents.CoordinatorAgent.constructor | maire/maire/agents/base.py:195-198 | a new coordinator is named "Coordinator", its id defaulting to "coordinator"; it is idle and has no registered agent and no workflow |
| Agents.CoordinatorAgent.Initialize | maire/maire/agents/base.py:200-203 | initialisation always succeeds |
| Agents.CoordinatorAgent.RegisterAgent | maire/maire/agents/base.py:205-211 | the agent's entry is replaced or appended with its capabilities, idle status and the registration instant; workflows are untouched |
| Agents.CoordinatorAgent.FindCapableAgent | maire/maire/agents/base.py:214-221 | the nested loop returns precisely the routing function's answer, including the error on an item without a name |
| Agents.CoordinatorAgent.OrchestrateWorkflow | maire/maire/agents/base.py:223-271 | an unhashable id raises before anything changes; otherwise a fresh running record is published under its id, and ends completed with all results or failed with the results before the first undispatchable task and its error |
| Agents.CoordinatorAgent.ProcessMessage | maire/maire/agents/base.py:273-301 | `register` registers the sender, stamped with the first clock reading, and acknowledges; `start_workflow` runs and publishes the workflow, started and ended at the first two readings, and replies with it, or, on an unhashable id, raises the "unhashable type" error and publishes nothing; the reply carries the last reading; any other action yields no reply and changes nothing |
| Agents.CoordinatorAgent.ExecuteTask | maire/maire/agents/base.py:303-330 | an `orchestrate` task succeeds with the published workflow, started and ended at the two clock readings, whatever its status, unless its id is unhashable, which fails with the "unhashable type" error; any other type fails with "Unknown task type"; the task id defaults to a fresh id |
| Agents.CoordinatorAgent.GetCapabilities | maire/maire/agents/base.py:332-347 | the coordinator's two fixed capabilities |
| Agents.AgentRegistry.constructor | maire/maire/agents/base.py:353-354 | a new registry is empty |
| Agents.AgentRegistry.Register | maire/maire/agents/base.py:357-360 | the agent is stored under its own id, replacing one with that id, and every entry stays keyed by its agent's id |
| Agents.AgentRegistry.GetAgent | maire/maire/agents/base.py:362-364 | an agent is found exactly when its id is registered, and the one found has that id |
| Agents.AgentRegistry.ListAgents | maire/maire/agents/base.py:366-368 | the ids in registration order, one per agent, each once, exactly those `get_agent` finds |
| Agents.PutKeepsOwnIds | maire/maire/agents/base.py:359 | storing an agent under its own id keeps every entry keyed by its agent's id |
| OrderedDicts.PutGet | maire/maire/agents/base.py:207 | after `d[k] = v`, `d.get(k)` is v |
| OrderedDicts.PutOther | maire/maire/agents/base.py:207 | `d[k] = v` leaves every other key's value alone |
| OrderedDicts.PutKeys | maire/maire/agents/base.py:368 | `d[k] = v` keeps the key order and appends k only if it was new |
| OrderedDicts.PutUnique | maire/maire/agents/base.py:359 | `d[k] = v` never duplicates a key |
| Config.Defaults | backend/core/config.py:36-46 | by default no LLM key, no vector-store URL and no vector-store key is set |
| Config.GetLlmConfig | backend/core/config.py:95-116 | fails exactly when no key is set; otherwise the first provider in Google, OpenAI, Anthropic order with a set key, with that key and that provider's model |
| Config.GoogleKeyWins | backend/core/config.py:97-102 | a Google key decides the provider whatever the other keys are |
| Config.OpenAiKeyNext | backend/core/config.py:103-108 | without a Google key an OpenAI key decides, whatever the Anthropic key is |
| Config.AnthropicKeyLast | backend/core/config.py:109-114 | with only an Anthropic key the provider is Anthropic |
| Config.GetWeaviateConfig | backend/core/config.py:118-131 | fails exactly when no URL is set; otherwise url and class name, plus the API key exactly when one is set |
| Etl.DocumentToDict | backend/etl/base.py:30-42 | one entry per document field under its snake-case name |
| Etl.DocumentRoundTrip | backend/etl/base.py:30-42 | reading back `to_dict` gives the same document |
| Etl.CollectAppend | backend/etl/base.py:162-171 | a failing collector does not stop collection: documents and errors of consecutive collectors concatenate in order |
| Etl.CollectCounts | backend/etl/base.py:162-171 | collected is the total returned by successful collectors, each raising collector leaves exactly one error naming it |
| Etl.CheckValidIff | backend/etl/base.py:176-188 | a document passes exactly when every validator accepts it, and then adds no error |
| Etl.CheckStopsAtFirstRejection | backend/etl/base.py:177-188 | the first validator not accepting a document ends its chain with that validator's report, whatever follows |
| Etl.ValidatedMembership | backend/etl/base.py:174-192 | a document is kept exactly when it passes its chain, and never more are kept than collected |
| Etl.ValidatedInOrder | backend/etl/base.py:174-192 | the kept documents are a subsequence of the collected ones |
| Etl.Passing | backend/etl/base.py:174-192 | the reference filter, front to back, keeps no more documents than it is given |
| Etl.PassingAppend | backend/etl/base.py:174-192 | filtering two runs of documents one after the other is filtering each |
| Etl.ValidatedArePassing | backend/etl/base.py:174-192 | the validation phase keeps exactly the reference filter's documents: each passing occurrence once, in collected order, nothing else |
| Etl.PassingMultiplicity | backend/etl/base.py:174-192 | the filter keeps a passing document as many times as it occurs and a failing one never |
| Etl.ValidatedMultiplicity | backend/etl/base.py:174-192 | the validation phase keeps each passing document as often as it was collected and each failing one never |
| Etl.SucceedingLoaders | backend/etl/base.py:195-198 | at most one success per loader |
| Etl.LoadCounts | backend/etl/base.py:195-206 | loaded is the number of succeeding loaders times the number of valid documents; each other loader leaves one error |
| Etl.RunAccounting | backend/etl/base.py:147-215 | parsed is always 0, validated never exceeds collected, and the collected, loaded and error counts follow the stage outcomes |
| Etl.ETLPipeline.constructor | backend/etl/base.py:120-125 | a new pipeline has no stage |
| Etl.ETLPipeline.AddCollector | backend/etl/base.py:127-130 | appends the collector, other stage lists unchanged |
| Etl.ETLPipeline.AddParser | backend/etl/base.py:132-135 | appends the parser, other stage lists unchanged |
| Etl.ETLPipeline.AddValidator | backend/etl/base.py:137-140 | appends the validator, other stage lists unchanged |
| Etl.ETLPipeline.AddLoader | backend/etl/base.py:142-145 | appends the loader, other stage lists unchanged |
| Etl.ETLPipeline.CollectPhase | backend/etl/base.py:161-171 | the collection loop yields exactly the collected documents and errors of `Collect`, in collector order |
| Etl.ETLPipeline.CheckDocument | backend/etl/base.py:176-188 | the validator loop for one document, broken off at the first rejection, gives exactly the chain's verdict and report |
| Etl.ETLPipeline.ValidatePhase | backend/etl/base.py:174-192 | the validation loop keeps exactly the documents that pass, in order, with the reports of the others |
| Etl.ETLPipeline.LoadPhase | backend/etl/base.py:195-206 | the loading loop yields exactly the loaded count and loader errors of `LoadAll` |
| Etl.ETLPipeline.Run | backend/etl/base.py:147-215 | the three phases compute exactly the run summary of the stage outcomes, and the run never fails |
| Rag.QueryResultToDict | backend/rag/base.py:24-30 | exactly the keys document, score and metadata |
| Rag.QueryResultRoundTrip | backend/rag/base.py:24-30 | reading back `to_dict` gives the same query result |
| Rag.SourcesToList | backend/rag/base.py:48 | one entry per source |
| Rag.SourcesRoundTrip | backend/rag/base.py:48 | the sources list reads back to the same sources in the same order |
| Rag.ResponseToDict | backend/rag/base.py:43-51 | exactly the five response keys |
| Rag.ResponseRoundTrip | backend/rag/base.py:43-51 | reading back `to_dict` gives the same response |
| Rag.DefaultParams | backend/rag/base.py:195-202 | the defaults k = 5, no filters, rerank on |
| Rag.RAGPipeline.Query | backend/rag/base.py:195-254 | a response answers its own query with what generate and confidence estimation returned on the (possibly reranked) retrieved sources, and carries retriever, generator, k and rerank as metadata |
| Rag.RAGPipeline.RerankOnlyWhenAsked | backend/rag/base.py:217-219 | rerank runs exactly when asked and more than one result was retrieved; otherwise the sources are the retrieved list |
| Rag.RAGPipeline.DefaultQueryReranks | backend/rag/base.py:196-220 | with the default arguments, five results are retrieved without filters and reranked whenever more than one comes back |
| Rag.RAGPipeline.QueryPropagatesFailure | backend/rag/base.py:206-254 | a query fails exactly when a stage fails (retrieve, rerank, generate or confidence estimate), with that stage's error |
| Rag.RAGPipeline.BatchQuery | backend/rag/base.py:256-279 | one response per query, in order, each the query's response or its error response |
| Rag.RAGPipeline.BatchAnswerShape | backend/rag/base.py:264-277 | a failed query's response has its query, no sources, confidence 0.0 and the error under `error`; a successful one is its own response |
| Text.LStripRemovesLongestPrefix | backend/agents/test_agent.py:229 | `lstrip` keeps a suffix: it removes only the given characters and stops at the first other one, so it removes the longest such prefix |
| Text.RStripRemovesLongestSuffix | backend/agents/test_agent.py:226 | the right half of `strip` keeps a prefix: it removes only whitespace and stops at the last other character |
| Text.StripSlice | backend/agents/test_agent.py:226 | `strip` leaves a slice with only whitespace cut from each side, neither starting nor ending with whitespace |
| Text.StripIdempotent | backend/agents/test_agent.py:226 | stripping twice is stripping once |
| Text.JoinSplit | backend/agents/test_agent.py:225 | `split` loses nothing: joining its pieces gives the text back |
| Text.SplitPiecesHaveNoSeparator | backend/agents/test_agent.py:225 | no piece of `split` contains the separator |
| TestAgents.Extracted | backend/agents/test_agent.py:225-229 | a line yields one insight exactly when its stripped form is non-empty and bulleted or mentions insight or important; that insight is the cleaned line |
| TestAgents.MatchesAppend | backend/agents/test_agent.py:225-229 | matching works line by line: the matches of consecutive blocks of lines concatenate |
| TestAgents.MatchesMembership | backend/agents/test_agent.py:225-229 | a text is a match exactly when it is the cleaned form of some qualifying line |
| TestAgents.CleanIsSlice | backend/agents/test_agent.py:229 | an insight is a stretch of its line with no whitespace at either end |
| TestAgents.Insights | backend/agents/test_agent.py:224-233 | at most five insights, the first matches in line order, and all of them when fewer than five |
| TestAgents.ExtractInsights | backend/agents/test_agent.py:224-233 | the loop over the reply's lines computes exactly the insights of the reply |
| TestAgents.AnalysisPromptCarriesText | backend/agents/test_agent.py:207-219 | every analysis prompt contains the text; any type other than budget and anomaly gets the general prompt |
| TestAgents.ChatPromptCarriesMessage | backend/agents/test_agent.py:175-182 | the chat prompt starts with the system prompt and contains the user's message |
| TestAgents.ChatConfidence | backend/agents/test_agent.py:187 | the confidence lies between 0.3 and 0.9, never exceeds the length estimate, and is that estimate unless capped at 0.9 |
| TestAgents.Chat | backend/agents/test_agent.py:168-199 | raises exactly without a model; otherwise the reply with its length confidence, or an apology with confidence 0 when the model fails |
| TestAgents.Analyze | backend/agents/test_agent.py:201-241 | raises exactly without a model; otherwise the reply to the prompt for the requested type with its insights (at most five), or a failure note and no insights |
| TestAgents.InsightList | backend/agents/test_agent.py:100 | the insights as a list of strings, one per insight, in order |
| TestAgents.TestAgent.constructor | backend/agents/test_agent.py:23-26 | a new test agent is named "Test Agent", its id defaulting to "test_agent"; it reads the given settings, has no capability and no model |
| TestAgents.TestAgent.Initialize | backend/agents/test_agent.py:28-65 | succeeds exactly when the Google key is set and the chat client is built; then holds the Google model at temperature 0.7 and 1000 tokens and adds the chat and analysis capabilities, otherwise changes nothing |
| TestAgents.TestAgent.HandleChat | backend/agents/test_agent.py:168-199 | the chat handler's result for the agent's model |
| TestAgents.TestAgent.HandleTextAnalysis | backend/agents/test_agent.py:201-241 | the analysis handler's result for the agent's model |
| TestAgents.TestAgent.ProcessMessage | backend/agents/test_agent.py:67-126 | the reply goes back to the sender, correlated with the request and stamped with the later clock reading; chat and analysis requests get their response, with the earlier reading in the content, or an error message without a model; other actions get an error listing the supported ones |
| TestAgents.TestAgent.ExecuteTask | backend/agents/test_agent.py:128-166 | succeeds exactly with a model and a chat or analysis type, with the handler's result and the model name; otherwise no result and a non-empty error; the task id defaults to "unknown" |
| TestAgents.TestAgent.GetCapabilities | backend/agents/test_agent.py:243-245 | the capabilities added so far |

## Left out

- Logging in every module: it has no effect on results.
- Not modelled: the agents' asyncio message loop, their periodic tasks, and `send_message`/`receive_message`. These are queue and event-loop plumbing around the modelled methods.
- `AgentRegistry.start_all` is not modelled: it only schedules every agent's `run` loop concurrently.
- The ACP-SDK wrapper class, the factory functions and the standalone `main` of the test agent are not modelled. They are wiring around the modelled `TestAgent`, plus `asyncio.run`.
- The clock (`datetime.now`), `uuid4` and elapsed times are parameters given by the caller. A timestamp is kept as an instant, not as ISO-8601 text.
- The chat model's network call becomes a function from prompt to reply or error. The same holds for collectors, validators, loaders, retrievers and generators, each a function from its arguments to a value or an error.
- Pydantic's loading of the settings from the environment and `.env`: the settings values are inputs.
- Floats are reals. The chat confidence is computed without rounding, and scores and amounts are opaque.
- Values.Render: `str()` is exact for strings, `None`, booleans and integers. Other kinds (floats, timestamps, lists, dictionaries, objects) get a placeholder naming their type, so error texts that embed such a value are not character-exact.
- Text.Lower: lower-cases ASCII letters only. The only non-ASCII characters whose lower case contains ASCII letters are U+0130 (to "i" + U+0307) and U+212A (to "k"). Neither can complete "insight" or "important", so the insight filter is unaffected.
- Python's cross-type key equality is not modelled. Examples are `1 == 1.0 == True` as dictionary keys, or a timestamp string equal to a literal. Keys of different kinds are always distinct here.
- Values.ListItems: a `capabilities` or `tasks` entry that is not a list is read as the empty list. In the source, iterating over a non-iterable raises, and any other iterable would be iterated.
- Agents.CoordinatorAgent.OrchestrateWorkflow: the `Message` built for each task is never sent in the source, so it is not modelled.
- Etl.ETLPipeline.Run: the outer `except` is not modelled. Every stage call is already guarded and nothing else in the body can raise, so it is unreachable.
- Parsers are registered but never called by `run` (`parsed` stays 0). The abstract stage classes' other methods (`validate_config`, `parse`, embedders, vector stores) are interfaces with no logic.
- `backend/agents/base.py` is not part of this model. The agent records, `BaseAgent` and the coordinator are modelled from `maire/maire/agents/base.py`.
- Etl.LoadAll: every loader is given the same validated list as an immutable sequence. In the source it is one shared list object, so a loader that mutated it would change what later loaders see and what `loaded` adds.
