# amadeus-burger: experiment runner, routing and node bookkeeping in Dafny

This project models the sequential decision and bookkeeping logic of the
amadeus-burger knowledge-learning agents. The LLM calls, the Neo4j driver,
the HTTP client and langgraph's executor stay outside the model. It covers
five groups:

- **Experiment runner** (`experiment_runner.dfy`). The runner is a class with
  one open-experiment slot, a snapshot list capped at `max_snapshots`, a
  metric map that overwrites, and the `override or default` settings
  getters. Each database `save`/`update` is appended to a ghost write log.
  The pipeline's current state, the clock and the fresh id are parameters.
- **Metric calculators** (`metrics.py` → `metrics.dfy`). The node and edge
  counters, the perplexity metric, the `metric_classes` registry and
  `get_metric`.
- **Routing and wiring** (`workflow.dfy`, `learning_pipelines.dfy`,
  `curiosity_pipeline.dfy`, `tool_pipeline.dfy`, `tool_pipeline_sam.dfy`).
  Each router is a pure function from the state to an `Outcome`. Each graph
  is a `Wiring` value: its nodes, entry, unconditional edges and outcome
  maps. A fuel-bounded walk runs a node, then follows its single edge or
  looks the router's answer up in its outcome map. The walk stops when it
  reaches END, has no rule to follow, gets an answer that is not a key of
  the map ("unroutable"), finds more than one rule leaving the node, or
  uses up its fuel. The walk claims nothing more about langgraph's executor.
- **Node state updates** (`curiosity_node.dfy`, `novelty_evaluator_node.dfy`,
  `web_search_node.dfy`, `knowledge_ingestion_node.dfy`,
  `final_answer_node.dfy`). The shared state dict is the class `SharedState`,
  and the nodes that write into it in place are methods that modify it. Each
  model or HTTP reply is a parameter.
- **Visualizer data preparation** (`visualizers.dfy`). Both `process_data`
  functions and `get_visualizer`.

Helper modules: `Wrappers` (Option, Result), `Values` (Python `Any` and
`x or default`), `Text` (Python `strip`, `split`, `join`, `lower` and `in`),
`Repr` (`str()` of a list or dict), `Chat` (messages and tool calls), `Json`
(parsed JSON values; `json.loads` is a parser parameter) and `AppStates` (the
curiosity pipeline's state).

Where the code and its documentation disagree, the model follows the code:

- the snapshot cap refuses new snapshots and does not evict old ones;
- `record_metric` consults the global `snapshot_on_metrics` setting, not the
  runner's override;
- `route_knowledge_ingestion` returns the string "END", not langgraph's END
  sentinel;
- `novelty_evaluator_node` always returns the "不夠新奇" message.

The runner's defaults are those of `ExperimentRunnerSettings` in
`src/amadeus_burger_auto/constants/settings.py:25-37`: interval 5.0,
1000 snapshots, snapshot on metrics, collection "experiments", no compressor.
`src/amadeus_burger/constants/settings.py` has no `experiment_runner` field.

## Model

| member | source | states |
|---|---|---|
| ExperimentRunner.FreshRecord | src/amadeus_burger/experiments/experiment_runner.py:113-124 | a started record is "running", has no end time, no metrics, no snapshots, and carries the given id, name, start time and input |
| ExperimentRunner.Runner.constructor | src/amadeus_burger/experiments/experiment_runner.py:31-51 | a new runner keeps its overrides, has an empty slot, no snapshot loop and an empty write log |
| ExperimentRunner.Runner.SnapshotInterval | src/amadeus_burger/experiments/experiment_runner.py:55-56 | a truthy override wins; None or 0.0 falls back to the setting |
| ExperimentRunner.Runner.MaxSnapshots | src/amadeus_burger/experiments/experiment_runner.py:59-60 | a non-zero override wins; None or 0 falls back to the setting |
| ExperimentRunner.Runner.SnapshotOnMetrics | src/amadeus_burger/experiments/experiment_runner.py:63-64 | true exactly when the override is True or the setting is true, so a False override cannot switch it off |
| ExperimentRunner.Runner.CollectionName | src/amadeus_burger/experiments/experiment_runner.py:67-68 | a non-empty override wins; None or "" falls back to the setting |
| ExperimentRunner.Runner.SnapshotCompressor | src/amadeus_burger/experiments/experiment_runner.py:84-85 | a non-empty override wins; otherwise the setting's compressor type |
| ExperimentRunner.Runner.UpdateCurrentExperiment | src/amadeus_burger/experiments/experiment_runner.py:87-91 | fails with "No experiment in progress" on an empty slot; otherwise sets each item in order and changes nothing else, and writes nothing to the log |
| ExperimentRunner.SetAllUntouched | src/amadeus_burger/experiments/experiment_runner.py:90-91 | an attribute the update does not name keeps its value, or stays absent |
| ExperimentRunner.SetAllLast | src/amadeus_burger/experiments/experiment_runner.py:90-91 | an attribute the update names takes the value of its last item |
| ExperimentRunner.Runner.Start | src/amadeus_burger/experiments/experiment_runner.py:104-140 | with an experiment open it fails with "Experiment already in progress" and leaves slot, loop and log untouched; otherwise it opens the fresh record, starts the loop when the interval is truthy and logs one save |
| ExperimentRunner.Runner.TakeSnapshot | src/amadeus_burger/experiments/experiment_runner.py:144-167 | fails on an empty slot; at or above the cap nothing changes; below it the state goes after the earlier snapshots and one update is logged; the cap invariant is kept |
| ExperimentRunner.SnapshotCapped | src/amadeus_burger/experiments/experiment_runner.py:153-162 | an offered snapshot never pushes the list past the cap, keeps earlier snapshots, and is appended iff the list is below the cap; nothing else in the record changes |
| ExperimentRunner.OfferBounded | src/amadeus_burger/experiments/experiment_runner.py:153-162 | after any number of snapshot offers the list is within the cap, keeps its prefix, and is either full or grew by one per offer |
| ExperimentRunner.Runner.RecordMetric | src/amadeus_burger/experiments/experiment_runner.py:180-194 | fails on an empty slot; otherwise overwrites that one metric, logs the metric map, and offers a snapshot only when the global setting is on |
| ExperimentRunner.Runner.End | src/amadeus_burger/experiments/experiment_runner.py:196-224 | fails on an empty slot; otherwise stops the loop, sets the status (default "completed") and end time, offers a final snapshot, logs the record, empties the slot and returns the closed record |
| ExperimentRunner.AttrKindOf | src/amadeus_burger/experiments/experiment_runner.py:53-85 | `db_client` is the one property with a setter; the other names a property is declared under have only a getter |
| ExperimentRunner.RunAssignmentsSucceeds | src/amadeus_burger/experiments/experiment_runner.py:31-51 | assignments that touch no getter-only property all take effect, each stored under its own name, the `db_client` setter's under `_db_client` |
| ExperimentRunner.RunAssignmentsFailsAt | src/amadeus_burger/experiments/experiment_runner.py:45 | the first assignment to a getter-only property raises its AttributeError, whatever follows it |
| ExperimentRunner.ConstructAsWrittenFails | src/amadeus_burger/experiments/experiment_runner.py:31-51 | the constructor's assignments go through up to line 45 and then raise, because `current_experiment` has no setter (lines 79-81) |
| ExperimentRunner.CorrectedConstructionSucceeds | src/amadeus_burger/experiments/experiment_runner.py:31-85 | the same assignments without line 45 all succeed, and every property's getter reads an attribute they set |
| ExperimentRunner.StartAsWritten | src/amadeus_burger/experiments/experiment_runner.py:104-111 | `start` as written succeeds only when compress_snapshots is True and no experiment is open |
| ExperimentRunner.StartAsWrittenFailsByDefault | src/amadeus_burger/experiments/experiment_runner.py:108-111 | without the argument it raises even with the slot empty, and with the slot full it raises before reaching the "already in progress" check |
| ExperimentRunner.TakeSnapshotAsWritten | src/amadeus_burger/experiments/experiment_runner.py:153-162 | whenever `take_snapshot` as written succeeds, the record is left unchanged, so it never stores a snapshot |
| ExperimentRunner.TakeSnapshotAsWrittenNeverAppends | src/amadeus_burger/experiments/experiment_runner.py:156-162 | on a fresh record the as-written snapshot raises, where the intended one stores the state |
| Metrics.CountEntries | src/amadeus_burger/experiments/metrics.py:16-22 | 0 when the state has no knowledge_graph or the key is absent; the list length otherwise; a non-dict graph raises |
| Metrics.Measure | src/amadeus_burger/experiments/metrics.py:16-45 | nodes and edges count their key; perplexity is returned unchanged and raises when the attribute is missing |
| Metrics.NodesAndEdgesAlike | src/amadeus_burger/experiments/metrics.py:30-36 | the edge counter behaves as the node counter does, over "edges" |
| Metrics.Metric.Calculate | src/amadeus_burger/experiments/metrics.py:16-45 | returns the measurement; on success `value` holds exactly it, on failure `value` is unchanged |
| Metrics.RegistryMissesNodeRelevance | src/amadeus_burger/experiments/metrics.py:47-51 | every metric kind except NODE_RELEVANCE has a registered class |
| Metrics.GetMetric | src/amadeus_burger/experiments/metrics.py:53-55 | a fresh metric of the requested kind with no value yet; a KeyError exactly for NODE_RELEVANCE |
| Workflow.RulesFromExactly | src/amadeus_burger/agents/pipelines.py:82-94 | the rules collected for a node are exactly the wiring's edges and conditional edges that leave it |
| Workflow.StepFrom | src/amadeus_burger/agents/pipelines.py:80-94 | one step leaves the state the node produced, and a single step never stops for lack of fuel |
| Workflow.StepVia | src/amadeus_burger/agents/pipelines.py:82-94 | when a step goes on, it goes along a rule of the wiring that leaves the node just run: an edge's target, or the target the router's answer selects |
| Workflow.Walk | src/amadeus_burger/agents/pipelines.py:80-94 | a walk runs at most `fuel` nodes and starts at the given node; running out of fuel means it used all of it |
| Workflow.CoveredNeverUnroutable | src/amadeus_burger/agents/pipelines.py:85-93 | if each router only answers keys of its outcome map, no walk stops on an unroutable answer |
| Workflow.WalkFollowsWiring | src/amadeus_burger/agents/pipelines.py:80-94 | a walk from a registered node visits only registered nodes, each reachable from the one before |
| Workflow.GuardedSteps | src/amadeus_burger/agents/pipelines_sam.py:112-128 | a set of nodes that no edge and no reachable router answer leads into is never stepped into |
| Workflow.WalkAvoids | src/amadeus_burger/agents/pipelines_sam.py:112-128 | a walk that starts outside such a set never visits it |
| LearningPipelines.ShouldContinueLearning | src/amadeus_burger/agents/pipelines.py:123-129 | "research" whenever there are gaps; with none, "validate" iff every score exceeds 0.8 (vacuous with no scores), else "plan"; on a routable state only these three |
| LearningPipelines.DecideNextStep | src/amadeus_burger/agents/pipelines.py:211-219 | "end" from 5 iterations on; below that "refine" whenever there are gaps; only end, refine or explore on a routable state |
| LearningPipelines.MinOrZero | src/amadeus_burger/agents/pipelines.py:217 | `min(values, default=0)`: 0 on no values, otherwise a value that is at most every value |
| LearningPipelines.DecideNextStepByMinimum | src/amadeus_burger/agents/pipelines.py:215-219 | with no gaps below 5 iterations: "explore" iff the minimum score (0 when empty) is below 0.9, else "end", in any enumeration order |
| LearningPipelines.WiringsCovered | src/amadeus_burger/agents/pipelines.py:69-194 | both graphs register every endpoint, and every label each predicate returns is a key of its map |
| LearningPipelines.NeverUnroutable | src/amadeus_burger/agents/pipelines.py:183-191 | no walk of either graph from a routable state stops unroutable |
| LearningPipelines.StructuredEndOnlyThroughValidate | src/amadeus_burger/agents/pipelines.py:81-94 | only "validate" leads to END, and only the synthesize router leads to "validate" |
| LearningPipelines.AdaptiveLoopsUntilOutOfFuel | src/amadeus_burger/agents/pipelines.py:196-219 | the stub nodes never change iterations, so with a gap open the adaptive graph cycles until the step bound is used up |
| LearningPipelines.AdaptiveStopsAtIterationBound | src/amadeus_burger/agents/pipelines.py:211-214 | from 5 iterations on, the adaptive graph runs explore and assess and finishes |
| LearningPipelines.GetPipeline | src/amadeus_burger/agents/pipelines.py:251-262 | a missing or empty type gives structured_learning; a ValueError with the listed types exactly for an unknown name |
| LearningPipelines.LearningPipeline.constructor | src/amadeus_burger/agents/pipelines.py:52-66 | the initial state of each kind, on which every router answers without a KeyError |
| LearningPipelines.LearningPipeline.Run | src/amadeus_burger/agents/pipelines.py:134-136 | the input goes after the earlier messages and no other field changes |
| CuriosityPipeline.ShouldContinue | src/amadeus_burger/agents/pipelines_sam.py:60-66 | "end" on no messages; otherwise "continue" iff the last message has tool calls |
| CuriosityPipeline.FreshState | src/amadeus_burger/agents/pipelines_sam.py:78-88 | empty lists and strings, need_more_kb set, need_regenerate_subq clear |
| CuriosityPipeline.Pipeline.constructor | src/amadeus_burger/agents/pipelines_sam.py:74-88 | a new pipeline holds the fresh state |
| CuriosityPipeline.Pipeline.Run | src/amadeus_burger/agents/pipelines_sam.py:137-148 | the input goes after the earlier messages and no other field changes |
| CuriosityPipeline.CuriosityRegistered | src/amadeus_burger/agents/pipelines_sam.py:98-128 | every rule leaves a registered node and leads to one or to END |
| CuriosityPipeline.ShouldContinueCovered | src/amadeus_burger/agents/pipelines_sam.py:113-117 | both should_continue answers are keys of its map (continue→action, end→final_answer_node) |
| CuriosityPipeline.RoutersNotCovered | src/amadeus_burger/agents/pipelines_sam.py:120-128 | "external_search_node" and the string "END" are not keys of their maps |
| CuriosityPipeline.NoveltyRouterEscapes | src/amadeus_burger/agents/pipelines_sam.py:120-124 | once novelty_test is set, the walk from the novelty node stops unroutable, whatever the nodes do |
| CuriosityPipeline.NoveltyWithSubquestionsUnroutable | src/amadeus_burger/agents/nodes/novelty_evaluator_node.py:24-46 | with sub-questions, the novelty node sets the flag and its router's answer is unroutable |
| CuriosityPipeline.IngestionNeverEnds | src/amadeus_burger/agents/pipelines_sam.py:126-128 | every walk from the ingestion node stops there unroutable, whatever the nodes do |
| CuriosityPipeline.SearchGuarded | src/amadeus_burger/agents/pipelines_sam.py:120-125 | the only way into the search nodes is an answer the novelty router never gives |
| CuriosityPipeline.SearchNeverRuns | src/amadeus_burger/agents/pipelines_sam.py:120-125 | no walk from another node ever runs the web search or ingestion node |
| CuriosityPipeline.CorrectedRoutersCovered | src/amadeus_burger/agents/pipelines_sam.py:120-128 | with the maps keyed by the routers' real answers, every answer of every router is covered |
| CuriosityPipeline.CorrectedSearchThenEnd | src/amadeus_burger/agents/pipelines_sam.py:120-128 | in the corrected wiring, with sub-questions, the walk from the novelty node runs novelty, web search and ingestion, and finishes |
| ToolPipeline.ShouldContinue | src/amadeus_burger_auto/agents/pipelines.py:219-221 | "end" iff some message anywhere in the history has tool calls |
| ToolPipeline.ChooseTool | src/amadeus_burger_auto/agents/pipelines.py:239-245 | "web" while no message has tool calls; afterwards "neo4j" iff the lower-cased last message contains "neo4j" or "match" |
| ToolPipeline.ChooseToolIgnoresCase | src/amadeus_burger_auto/agents/pipelines.py:241-243 | "MATCH" anywhere in the last message selects neo4j once tools were used |
| ToolPipeline.NoveltyDecision | src/amadeus_burger_auto/agents/pipelines.py:357-362 | "fail" when the last message is missing, unparsable, not an object or has no decision; otherwise the decision string as it is, and no string label for a non-string decision |
| ToolPipeline.NoveltyDecisionCovered | src/amadeus_burger_auto/agents/pipelines.py:364-371 | the decision is a key of {pass, fail} iff no object was parsed, it has no decision, or the decision is the string pass or fail |
| ToolPipeline.NoveltyDecisionEscapes | src/amadeus_burger_auto/agents/pipelines.py:357-362 | a judge answering decision "maybe" yields a label the map lacks |
| ToolPipeline.ValidateNovelty | src/amadeus_burger_auto/agents/pipelines.py:133-140 | passes the judge's object exactly when it parses to an object with decision pass or fail; a parse error yields the error reason, any other object yields "無法解析決策" |
| ToolPipeline.VerdictDecides | src/amadeus_burger_auto/agents/pipelines.py:134-140 | every verdict carries decision pass or fail, and "pass" only when the judge said so |
| ToolPipeline.VerdictRoutes | src/amadeus_burger_auto/agents/pipelines.py:357-371 | a message holding a verdict makes novelty_decision answer a key of its map |
| ToolPipeline.CheckModel | src/amadeus_burger_auto/agents/pipelines.py:189-192 | only "openai" (the default) is accepted; anything else is the ValueError |
| ToolPipeline.CallModel | src/amadeus_burger_auto/agents/pipelines.py:265-272 | the old history with exactly the response put after it |
| ToolPipeline.ToolAction | src/amadeus_burger_auto/agents/pipelines.py:292-313 | the old history plus one system message with the tool's answer to the last message; IndexError on no messages |
| ToolPipeline.Regenerate | src/amadeus_burger_auto/agents/pipelines.py:316-325 | the old history plus one message; the reason defaults to "未知原因"; a short history, bad JSON or non-object raise |
| ToolPipeline.ToolUseSticks | src/amadeus_burger_auto/agents/pipelines.py:219-221 | appending keeps any tool call, so once should_continue says "end" it keeps saying so |
| ToolPipeline.ToolWiringRegistered | src/amadeus_burger_auto/agents/pipelines.py:289-388 | every rule leaves a registered node and leads to one or to END |
| ToolPipeline.ToolWiringCovered | src/amadeus_burger_auto/agents/pipelines.py:337-388 | the maps are keyed exactly by {neo4j, web}, {pass, fail}, {continue, end}, covering choose_tool and should_continue |
| ToolPipeline.AgentHasTwoRouters | src/amadeus_burger_auto/agents/pipelines.py:337-388 | "agent" is left by two routers, so the walk stops there ambiguous |
| ToolPipelineSam.AnyNeo4jCall | src/amadeus_burger_auto/agents/pipelines_sam.py:276-278 | true iff some call's lower-cased name equals "query_neo4j" |
| ToolPipelineSam.ChooseTool | src/amadeus_burger_auto/agents/pipelines_sam.py:265-282 | only "neo4j" or "web", and "web" when no message has tool calls |
| ToolPipelineSam.ChooseToolByNewestToolUse | src/amadeus_burger_auto/agents/pipelines_sam.py:272-280 | the newest message with tool calls decides: "neo4j" iff one of its calls is query_neo4j |
| ToolPipelineSam.ChooseToolIgnoresOlder | src/amadeus_burger_auto/agents/pipelines_sam.py:272-274 | messages older than the newest tool use are never looked at |
| ToolPipelineSam.ReasonOf | src/amadeus_burger_auto/agents/pipelines_sam.py:252-256 | the JSON object's "reason", or "未知原因" when it is absent, unparsable or not an object |
| ToolPipelineSam.Regenerate | src/amadeus_burger_auto/agents/pipelines_sam.py:236-259 | the full history plus one message; only a history shorter than two raises |
| ToolPipelineSam.RegenerateToleratesBadJson | src/amadeus_burger_auto/agents/pipelines_sam.py:251-256 | where the other graph's regenerate raises on bad JSON, this one uses the default reason |
| ToolPipelineSam.CallModel | src/amadeus_burger_auto/agents/pipelines_sam.py:214-233 | the unsupported-model error as in the other graph; otherwise only the new response, no history |
| ToolPipelineSam.CallModelReturnsOnlyTheNew | src/amadeus_burger_auto/agents/pipelines_sam.py:228-233 | it is exactly the part the other graph's call_model appends |
| ToolPipelineSam.QueryNeo4j | src/amadeus_burger_auto/agents/pipelines_sam.py:76-77 | the fixed "no data" notice followed by the query, never the driver's records |
| ToolPipelineSam.QueryNeo4jInjective | src/amadeus_burger_auto/agents/pipelines_sam.py:77 | the query can be read back from the notice |
| ToolPipelineSam.NoveltyCheckUnroutable | src/amadeus_burger_auto/agents/pipelines_sam.py:352-359 | the novelty tool node used as a router answers no string, so a walk from novelty_check stops there unroutable |
| ToolPipelineSam.AgentHasTwoRouters | src/amadeus_burger_auto/agents/pipelines_sam.py:341-375 | "agent" is left by two routers here too |
| CuriosityNode.Subquestions | src/amadeus_burger/agents/nodes/curiosity_node.py:43 | no stored sub-question is empty, has whitespace at either end or spans lines |
| CuriosityNode.SubquestionsConcat | src/amadeus_burger/agents/nodes/curiosity_node.py:43 | the sub-questions of two line blocks are the first block's followed by the second's (order kept) |
| CuriosityNode.SubquestionsOfLine | src/amadeus_burger/agents/nodes/curiosity_node.py:43 | a blank line contributes nothing; any other line contributes its stripped text |
| CuriosityNode.SubquestionsRoundTrip | src/amadeus_burger/agents/nodes/curiosity_node.py:43 | stripped sub-questions written one per line come back exactly |
| CuriosityNode.Curiosity | src/amadeus_burger/agents/nodes/curiosity_node.py:43-57 | replaces the sub-questions wholesale, sets the regenerate flag iff fewer than two survive, changes nothing else, returns one message |
| CuriosityNode.RouteCuriosity | src/amadeus_burger/agents/nodes/curiosity_node.py:66-68 | "curiosity_node" iff the flag is set (absent counts as false), else "external_search_node" |
| NoveltyEvaluatorNode.NoveltyEffect | src/amadeus_burger/agents/nodes/novelty_evaluator_node.py:24-30 | novelty_test becomes whether there are sub-questions; no other field changes |
| NoveltyEvaluatorNode.NoveltyEvaluator | src/amadeus_burger/agents/nodes/novelty_evaluator_node.py:24-35 | the state changes as NoveltyEffect says; the one returned message is always the "不夠新奇" text |
| NoveltyEvaluatorNode.RouteNoveltyEvaluator | src/amadeus_burger/agents/nodes/novelty_evaluator_node.py:44-47 | "external_search_node" iff novelty_test, "curiosity_node" otherwise, KeyError when never set |
| WebSearchNode.ReplyText | src/amadeus_burger/agents/nodes/web_search_node.py:61-68 | the first choice's content, "無回應" without choices, "[Perplexity API Error] …" on failure |
| WebSearchNode.SearchAll | src/amadeus_burger/agents/nodes/web_search_node.py:39-68 | the loop builds exactly the aggregate of the sub-questions' reply texts |
| WebSearchNode.AssignLookup | src/amadeus_burger/agents/nodes/web_search_node.py:64 | `d[k] = v` keeps keys distinct, maps k to v and leaves other keys as they were |
| WebSearchNode.AggregateKeys | src/amadeus_burger/agents/nodes/web_search_node.py:39-64 | the result's keys are exactly the sub-questions, each once |
| WebSearchNode.AggregateOrder | src/amadeus_burger/agents/nodes/web_search_node.py:39-64 | the keys come in first-occurrence order |
| WebSearchNode.AggregateMissing | src/amadeus_burger/agents/nodes/web_search_node.py:39-64 | a string that is not a sub-question is not a key |
| WebSearchNode.AggregateLast | src/amadeus_burger/agents/nodes/web_search_node.py:40-68 | a sub-question's text is the reply to its last occurrence |
| WebSearchNode.SearchedState | src/amadeus_burger/agents/nodes/web_search_node.py:71-77 | one chunk starting "[WebSearchResult]\n" appended, one external-data line per result, the list created when absent, nothing else changed |
| WebSearchNode.AppendEntries | src/amadeus_burger/agents/nodes/web_search_node.py:76-77 | the loop appends the "k: v" lines in order and changes nothing else |
| WebSearchNode.WebSearch | src/amadeus_burger/agents/nodes/web_search_node.py:24-81 | no sub-questions or no API key: one notice, state unchanged; otherwise the searched state and one message |
| KnowledgeIngestionNode.IngestionEffect | src/amadeus_burger/agents/nodes/knowledge_ingestion_node.py:39-53 | without external data nothing changes; otherwise exactly one "[Ingested Info]\n" chunk at the end; external_data never changes |
| KnowledgeIngestionNode.KnowledgeIngestion | src/amadeus_burger/agents/nodes/knowledge_ingestion_node.py:39-56 | the state changes as IngestionEffect says and one message is returned |
| KnowledgeIngestionNode.RouteKnowledgeIngestion | src/amadeus_burger/agents/nodes/knowledge_ingestion_node.py:59-64 | the string "END" for every state, which is not the END sentinel |
| FinalAnswerNode.KnowledgeText | src/amadeus_burger/agents/nodes/final_answer_node.py:36 | "目前知識庫中無相關知識" exactly when the chunks join to the empty string (none, or one empty chunk); otherwise the "\n" join |
| FinalAnswerNode.AnswerRecordSql | src/amadeus_burger/agents/nodes/final_answer_node.py:49 | question and answer appear verbatim at fixed offsets |
| FinalAnswerNode.LogSql | src/amadeus_burger/agents/nodes/final_answer_node.py:50 | question and answer appear verbatim after "Q: " and "A: " |
| FinalAnswerNode.AnswerRecordFields | src/amadeus_burger/agents/nodes/final_answer_node.py:49 | without single quotes in the values, the quotes delimit exactly question and answer |
| FinalAnswerNode.Prompt | src/amadeus_burger/agents/nodes/final_answer_node.py:42 | the user turn holds the question verbatim after "Question: " and ends with the knowledge text, the fallback text when there are no chunks |
| FinalAnswerNode.FinalAnswer | src/amadeus_burger/agents/nodes/final_answer_node.py:39-56 | answer_text is the model's reply to the prompt, the one message is "[FinalAnswerNode] " + reply, and the two inserts come in order; the state is not written |
| FinalAnswerNode.FinalAnswerThroughPrompt | src/amadeus_burger/agents/nodes/final_answer_node.py:36-44 | two states with the same question and the same knowledge text get the same update |
| Visualizers.AttrOf | src/amadeus_burger/visualizers/visualizers.py:32-35 | confidence is the topic's score or 0; status is "gap" iff the topic is in understanding_gaps, else "learned" |
| Visualizers.ProcessKnowledgeGraph | src/amadeus_burger/visualizers/visualizers.py:23-41 | attributes for exactly the topics; nodes are the topics and their related topics; one edge per topic and related topic |
| Visualizers.AddRelated | src/amadeus_burger/visualizers/visualizers.py:38-39 | the inner loop adds each related topic and its edge to the topic |
| Visualizers.GraphOfSets | src/amadeus_burger/visualizers/visualizers.py:30-39 | the graph after any order of topics is the one their sets describe |
| Visualizers.ProgressRecords | src/amadeus_burger/visualizers/visualizers.py:109-116 | one record per quiz result, in order, with exactly timestamp, score and topic; KeyError iff some result lacks one |
| Visualizers.ProcessLearningProgress | src/amadeus_burger/visualizers/visualizers.py:108 | no quiz_results gives no records |
| Visualizers.GetVisualizer | src/amadeus_burger/visualizers/visualizers.py:161-175 | a missing or empty type gives knowledge_graph; a ValueError exactly for names other than the two classes |
| Visualizers.DocumentedButMissing | src/amadeus_burger/visualizers/visualizers.py:149-173 | "confidence_heatmap" and "topic_network" are documented but rejected |

## Left out

- The background snapshot thread and its stop event are concurrency. They are reduced to the `loopRunning` flag that `Start` sets and `End` clears. Its loop body is not modelled.
- The database client is not modelled. Its `save`/`update` calls are entries in the ghost `log`. SQLiteClient, the store interface and its tests are not part of this model.
- ExperimentRunner.Runner.UpdateCurrentExperiment: the record class is not part of this model, so `setattr` writes into an `attributes` map. Setting a declared field such as `status` is not tied to that field.
- ExperimentRunner.Runner.TakeSnapshot: the snapshot holds the pipeline's state value. The `Snapshot` wrapper, its timestamp, compression and the unused collection and compressor arguments are not modelled. Compressors are stubs in the source.
- ExperimentRunner.Runner.Start: the uuid, the clock and `pipeline.get_config()` are parameters, and the pipeline's class name is the constructor's `pipelineType`. The `max_snapshots` and `snapshot_on_metrics` arguments are computed and then never used, so they are not parameters.
- ExperimentRunner.Runner.End: the final snapshot's own exception cannot occur in the corrected model. So the swallowing `try` is only the path that leaves the record as it is. The status is an `Option` whose None stands for the omitted argument, so an explicit Python `None`, which `end` stores as it is, is not modelled.
- Metrics: `name`, `description` and the computation timestamp are not modelled. The base `Metric` class is not part of this model; `value` is a field of `Metric`.
- LLM calls (ChatOpenAI, `bind_tools`, `invoke`), ToolNode, the Neo4j driver and the Perplexity and OpenAI HTTP requests are outside the model. Each reply is a parameter, and so is the tool's answer in a node lambda. Apart from the final-answer node's user turn, the prompt texts sent to the models are not modelled, and neither is that node's fixed system turn.
- `json.loads` is a `Parser` parameter, and `json.dumps` is left out: a verdict is returned as the JSON value it would dump.
- `str()` of lists and dicts quotes each string in single quotes. Python's escaping of quotes and backslashes is not modelled.
- `str.lower()` maps only ASCII A-Z. The keywords it is compared with are ASCII.
- Workflow.Walk: this is a fuel-bounded "next node = map[label]" walk, not langgraph's executor. State merging, checkpoints, the MemorySaver checkpointer, START and the recursion-limit error are not modelled. A node's effect is a parameter, and two rules leaving one node stop the walk as "ambiguous". langgraph's behaviour there is not visible.
- The learning pipelines' node bodies return the state unchanged (`StubEffect`). Their `get_config` dicts are constants and are not modelled.
- `knowledge_base_node`, the knowledge-base fetcher tool, the `query_web` and `evaluate_novelty` tool bodies (other than the validation), and `regenerate_subproblems` are prompt assembly around a model call.
- Visualizer rendering, export, spring layout and plotly are floating point and drawing. The graph is kept as node and edge sets, so networkx's node insertion order is not modelled.
- Settings modules, enums, literals, re-exports and module-level graph construction are configuration or import-time side effects.

## Findings

| source | as written | input that shows it | evidently intended | confidence | as-written member | corrected member |
|---|---|---|---|---|---|---|
| src/amadeus_burger/experiments/experiment_runner.py:45 | the constructor assigns to `current_experiment`, a property without a setter | any construction of a runner | keep the slot in `_current_experiment` only | high; not executed | ExperimentRunner.ConstructAsWrittenFails | ExperimentRunner.Runner.constructor |
| src/amadeus_burger/experiments/experiment_runner.py:108 | `start` reads `self.compress_snapshots`, which the runner never has | `start(name, input)` without compress_snapshots | the slot guard and fresh record of lines 110-124 | high; not executed | ExperimentRunner.StartAsWrittenFailsByDefault | ExperimentRunner.Runner.Start |
| src/amadeus_burger/experiments/experiment_runner.py:158 | `take_snapshot` tests the undefined name `compress_snapshots` below the cap | a snapshot of a freshly started record | append the state below the cap | high; not executed | ExperimentRunner.TakeSnapshotAsWrittenNeverAppends | ExperimentRunner.SnapshotCapped |
| src/amadeus_burger/agents/pipelines_sam.py:123 | the novelty router answers "external_search_node", which its map lacks | a state with sub-questions after the novelty node | route that answer to web_search_node | high; not executed | CuriosityPipeline.NoveltyWithSubquestionsUnroutable | CuriosityPipeline.CorrectedSearchThenEnd |
| src/amadeus_burger/agents/pipelines_sam.py:127 | the ingestion router answers the string "END", but the map is keyed by the END sentinel | any state reaching knowledge_ingestion_node | end the run | high; not executed | CuriosityPipeline.IngestionNeverEnds | CuriosityPipeline.CorrectedRoutersCovered |
