/** The curiosity-driven pipeline: its routing predicate, its initial state,
    its graph as data and `run`. The graph exposes two routers whose answers
    are not keys of their outcome maps. */
module CuriosityPipeline {
  import opened Wrappers
  import opened Chat
  import opened AppStates
  import opened Workflow
  import opened NoveltyEvaluatorNode
  import opened KnowledgeIngestionNode

  /** `should_continue`: continue exactly when the last message asks for tools. */
  function ShouldContinue(st: AppState): (o: Outcome)
    ensures st.messages == [] ==> o == Label("end")
    ensures st.messages != [] ==> (o == Label("continue") <==> HasToolCalls(st.messages[|st.messages| - 1]))
    ensures o == Label("continue") || o == Label("end")
  {
    if st.messages == [] then Label("end")
    else if !HasToolCalls(st.messages[|st.messages| - 1]) then Label("end")
    else Label("continue")
  }

  /** The state a new pipeline starts from. */
  function FreshState(): (st: AppState)
    ensures st.messages == [] && st.knowledgeChunks == [] && st.subquestions == [] && st.dbSqlLogs == []
    ensures st.externalData == Some([]) && st.question == "" && st.answerText == ""
    ensures st.needMoreKb && st.needRegenerateSubq == Some(false) && st.noveltyTest == None
  {
    AppState([], "", [], [], "", [], true, Some(false), Some([]), None)
  }

  /** The graph; the START edge is its entry. */
  function CuriosityWiring(): Wiring {
    Wiring(
      ["knowledge_base_node", "final_answer_node", "curiosity_node", "novelty_evaluator_node",
       "web_search_node", "knowledge_ingestion_node", "action"],
      "knowledge_base_node",
      [ Branch("knowledge_base_node", "should_continue",
               map[Label("continue") := Node("action"), Label("end") := Node("final_answer_node")]),
        Edge("final_answer_node", Node("curiosity_node")),
        Edge("curiosity_node", Node("novelty_evaluator_node")),
        Branch("novelty_evaluator_node", "route_novelty_evaluator",
               map[Label("curiosity_node") := Node("curiosity_node"),
                   Label("web_search_node") := Node("web_search_node")]),
        Edge("web_search_node", Node("knowledge_ingestion_node")),
        Branch("knowledge_ingestion_node", "route_knowledge_ingestion", map[EndSentinel := End])])
  }

  /** The routers by the names the wiring gives them. */
  function Route(router: string, st: AppState): Outcome {
    if router == "should_continue" then ShouldContinue(st)
    else if router == "route_novelty_evaluator" then RouteNoveltyEvaluator(st)
    else RouteKnowledgeIngestion(st)
  }

  /** Every rule leaves a registered node and leads to one or to END. */
  lemma CuriosityRegistered()
    ensures Registered(CuriosityWiring())
  {
    var w := CuriosityWiring();
    forall rule | rule in w.rules
      ensures rule.from in w.nodes
      ensures rule.Edge? ==> TargetRegistered(w, rule.to)
      ensures rule.Branch? ==> forall o :: o in rule.outcomes ==> TargetRegistered(w, rule.outcomes[o])
    {
      var k :| 0 <= k < |w.rules| && w.rules[k] == rule;
      assert w.nodes[k] == rule.from;
    }
  }

  /** Both answers of `should_continue` are keys of its map. */
  lemma ShouldContinueCovered()
    ensures RouterCovered(CuriosityWiring(), "should_continue", {Label("continue"), Label("end")})
  {
  }

  /** The novelty router's "external_search_node" and the ingestion router's
      "END" are not keys of their maps. */
  lemma RoutersNotCovered()
    ensures !RouterCovered(CuriosityWiring(), "route_novelty_evaluator",
                           {Label("curiosity_node"), Label("external_search_node")})
    ensures !RouterCovered(CuriosityWiring(), "route_knowledge_ingestion", {Label("END")})
  {
    var w := CuriosityWiring();
    assert w.rules[3] in w.rules && w.rules[5] in w.rules;
    assert Label("external_search_node") !in w.rules[3].outcomes;
    assert Label("END") !in w.rules[5].outcomes;
  }

  /** One rule alone leaves each of the novelty, web search and ingestion nodes. */
  lemma SearchRulesAlone()
    ensures var w := CuriosityWiring();
      && RulesFrom(w.rules, "novelty_evaluator_node") == [w.rules[3]]
      && RulesFrom(w.rules, "knowledge_ingestion_node") == [w.rules[5]]
  {
    var w := CuriosityWiring();
    RulesFromOne(w.rules, "novelty_evaluator_node", 3);
    RulesFromOne(w.rules, "knowledge_ingestion_node", 5);
  }

  /** Whatever the nodes do, once the novelty node has set `novelty_test`,
      its router answers "external_search_node", which its map lacks: the
      walk stops there. */
  lemma NoveltyRouterEscapes(effect: (string, AppState) -> AppState, st: AppState, fuel: nat)
    requires fuel >= 1
    requires effect("novelty_evaluator_node", st).noveltyTest == Some(true)
    ensures Walk(CuriosityWiring(), Route, effect, "novelty_evaluator_node", st, fuel).stop
      == Unroutable("novelty_evaluator_node", Label("external_search_node"))
  {
    var w := CuriosityWiring();
    var s' := effect("novelty_evaluator_node", st);
    SearchRulesAlone();
    assert Route("route_novelty_evaluator", s') == Label("external_search_node");
    assert Label("external_search_node") !in w.rules[3].outcomes;
    WalkUnroutable(w, Route, effect, "novelty_evaluator_node", st, fuel, "route_novelty_evaluator", w.rules[3].outcomes);
  }

  /** The novelty node's own effect, the other nodes left abstract as no-ops. */
  function NoveltyOnly(node: string, st: AppState): AppState {
    if node == "novelty_evaluator_node" then NoveltyEffect(st) else st
  }

  /** So with sub-questions to search for, the walk from the novelty node is
      unroutable. */
  lemma NoveltyWithSubquestionsUnroutable(st: AppState, fuel: nat)
    requires fuel >= 1 && st.subquestions != []
    ensures Walk(CuriosityWiring(), Route, NoveltyOnly, "novelty_evaluator_node", st, fuel).stop
      == Unroutable("novelty_evaluator_node", Label("external_search_node"))
  {
    NoveltyRouterEscapes(NoveltyOnly, st, fuel);
  }

  /** `route_knowledge_ingestion` answers the string "END", and the map is
      keyed by the END sentinel: every walk reaching the ingestion node stops
      there unroutable. */
  lemma IngestionNeverEnds(effect: (string, AppState) -> AppState, st: AppState, fuel: nat)
    requires fuel >= 1
    ensures Walk(CuriosityWiring(), Route, effect, "knowledge_ingestion_node", st, fuel).stop
      == Unroutable("knowledge_ingestion_node", Label("END"))
  {
    var w := CuriosityWiring();
    var s' := effect("knowledge_ingestion_node", st);
    SearchRulesAlone();
    assert Route("route_knowledge_ingestion", s') == Label("END");
    assert Label("END") !in w.rules[5].outcomes;
    WalkUnroutable(w, Route, effect, "knowledge_ingestion_node", st, fuel, "route_knowledge_ingestion", w.rules[5].outcomes);
  }

  /** The nodes the novelty router cannot send a walk to. */
  function SearchNodes(): set<string> {
    {"web_search_node", "knowledge_ingestion_node"}
  }

  /** The only way into the search nodes is the novelty router's
      "web_search_node" answer, which it never gives. */
  lemma SearchGuarded()
    ensures GuardedBy(CuriosityWiring(), Route, SearchNodes())
  {
    var w := CuriosityWiring();
    forall rule | rule in w.rules && rule.from !in SearchNodes()
      ensures rule.Edge? && rule.to.Node? ==> rule.to.name !in SearchNodes()
      ensures rule.Branch? ==> forall o, x ::
                (o in rule.outcomes && rule.outcomes[o].Node? && rule.outcomes[o].name in SearchNodes())
                ==> Route(rule.router, x) != o
    {
      var k :| 0 <= k < |w.rules| && w.rules[k] == rule;
      if k == 3 {
        forall o, x | o in rule.outcomes && rule.outcomes[o].Node? && rule.outcomes[o].name in SearchNodes()
          ensures Route(rule.router, x) != o
        {
          assert o == Label("web_search_node");
        }
      }
    }
  }

  /** So whatever the nodes do, no walk from any other node ever runs the
      web search or the ingestion node. */
  lemma SearchNeverRuns(effect: (string, AppState) -> AppState, at: string, st: AppState, fuel: nat)
    requires at != "web_search_node" && at != "knowledge_ingestion_node"
    ensures "web_search_node" !in Walk(CuriosityWiring(), Route, effect, at, st, fuel).trace
    ensures "knowledge_ingestion_node" !in Walk(CuriosityWiring(), Route, effect, at, st, fuel).trace
  {
    SearchGuarded();
    GuardedSteps(CuriosityWiring(), Route, effect, SearchNodes());
    WalkAvoids(CuriosityWiring(), Route, effect, SearchNodes(), at, st, fuel);
  }

  /** The graph with the two outcome maps keyed by what their routers
      answer: "external_search_node" leads to the web search, and the
      string "END" ends the run. */
  function CorrectedCuriosityWiring(): Wiring {
    Wiring(
      ["knowledge_base_node", "final_answer_node", "curiosity_node", "novelty_evaluator_node",
       "web_search_node", "knowledge_ingestion_node", "action"],
      "knowledge_base_node",
      [ Branch("knowledge_base_node", "should_continue",
               map[Label("continue") := Node("action"), Label("end") := Node("final_answer_node")]),
        Edge("final_answer_node", Node("curiosity_node")),
        Edge("curiosity_node", Node("novelty_evaluator_node")),
        Branch("novelty_evaluator_node", "route_novelty_evaluator",
               map[Label("curiosity_node") := Node("curiosity_node"),
                   Label("external_search_node") := Node("web_search_node")]),
        Edge("web_search_node", Node("knowledge_ingestion_node")),
        Branch("knowledge_ingestion_node", "route_knowledge_ingestion", map[Label("END") := End])])
  }

  /** There every answer of every router is a key of its map. */
  lemma CorrectedRoutersCovered()
    ensures Registered(CorrectedCuriosityWiring())
    ensures RouterCovered(CorrectedCuriosityWiring(), "should_continue", {Label("continue"), Label("end")})
    ensures RouterCovered(CorrectedCuriosityWiring(), "route_novelty_evaluator",
                          {Label("curiosity_node"), Label("external_search_node")})
    ensures RouterCovered(CorrectedCuriosityWiring(), "route_knowledge_ingestion", {Label("END")})
  {
    var w := CorrectedCuriosityWiring();
    forall rule | rule in w.rules
      ensures rule.from in w.nodes
      ensures rule.Edge? ==> TargetRegistered(w, rule.to)
      ensures rule.Branch? ==> forall o :: o in rule.outcomes ==> TargetRegistered(w, rule.outcomes[o])
      ensures rule.Branch? && rule.router == "should_continue" ==>
        {Label("continue"), Label("end")} <= rule.outcomes.Keys
      ensures rule.Branch? && rule.router == "route_novelty_evaluator" ==>
        {Label("curiosity_node"), Label("external_search_node")} <= rule.outcomes.Keys
      ensures rule.Branch? && rule.router == "route_knowledge_ingestion" ==> {Label("END")} <= rule.outcomes.Keys
    {
      var k :| 0 <= k < |w.rules| && w.rules[k] == rule;
      assert w.nodes[k] == rule.from;
    }
  }


  /** One rule alone leaves each of the novelty, web search and ingestion nodes. */
  lemma CorrectedRulesAlone()
    ensures var w := CorrectedCuriosityWiring();
      && RulesFrom(w.rules, "novelty_evaluator_node") == [w.rules[3]]
      && RulesFrom(w.rules, "web_search_node") == [w.rules[4]]
      && RulesFrom(w.rules, "knowledge_ingestion_node") == [w.rules[5]]
  {
    var w := CorrectedCuriosityWiring();
    RulesFromOne(w.rules, "novelty_evaluator_node", 3);
    RulesFromOne(w.rules, "web_search_node", 4);
    RulesFromOne(w.rules, "knowledge_ingestion_node", 5);
  }

  /** The three steps of the corrected graph from the novelty node on. */
  lemma CorrectedNoveltyStep(st: AppState)
    requires st.subquestions != []
    ensures StepFrom(CorrectedCuriosityWiring(), Route, NoveltyOnly, "novelty_evaluator_node", st)
      == Goto("web_search_node", NoveltyEffect(st))
  {
    var w := CorrectedCuriosityWiring();
    var s' := NoveltyEffect(st);
    CorrectedRulesAlone();
    assert Route("route_novelty_evaluator", s') == Label("external_search_node");
    StepByBranch(w, Route, NoveltyOnly, "novelty_evaluator_node", st, "route_novelty_evaluator", w.rules[3].outcomes);
  }

  lemma CorrectedSearchStep(st: AppState)
    ensures StepFrom(CorrectedCuriosityWiring(), Route, NoveltyOnly, "web_search_node", st)
      == Goto("knowledge_ingestion_node", st)
  {
    var w := CorrectedCuriosityWiring();
    CorrectedRulesAlone();
    StepByEdge(w, Route, NoveltyOnly, "web_search_node", st, "knowledge_ingestion_node");
  }

  lemma CorrectedIngestionStep(st: AppState)
    ensures StepFrom(CorrectedCuriosityWiring(), Route, NoveltyOnly, "knowledge_ingestion_node", st)
      == Halt(Finished, st)
  {
    var w := CorrectedCuriosityWiring();
    CorrectedRulesAlone();
    assert Route("route_knowledge_ingestion", st) == Label("END");
    StepByBranch(w, Route, NoveltyOnly, "knowledge_ingestion_node", st, "route_knowledge_ingestion", w.rules[5].outcomes);
  }

  /** So with sub-questions to search for, a walk from the novelty node runs
      the web search and the ingestion node and then finishes. */
  lemma CorrectedSearchThenEnd(st: AppState, fuel: nat)
    requires fuel >= 3 && st.subquestions != []
    ensures Walk(CorrectedCuriosityWiring(), Route, NoveltyOnly, "novelty_evaluator_node", st, fuel)
      == Run(Finished, ["novelty_evaluator_node", "web_search_node", "knowledge_ingestion_node"], NoveltyEffect(st))
  {
    var w := CorrectedCuriosityWiring();
    var s' := NoveltyEffect(st);
    CorrectedNoveltyStep(st);
    CorrectedSearchStep(s');
    CorrectedIngestionStep(s');
    WalkThree(w, Route, NoveltyOnly, "novelty_evaluator_node", "web_search_node", "knowledge_ingestion_node",
              st, s', s', Finished, s', fuel);
  }

  /** A pipeline object; its state dict is updated in place by `run`. */
  class Pipeline {
    var state: AppState

    constructor ()
      ensures state == FreshState()
    {
      state := FreshState();
    }

    /** `run`: append the input to the messages and hand the state to the
        graph; returns the state that the graph is invoked on. */
    method Run(input: Message) returns (invoked: AppState)
      modifies this
      ensures state == old(state).(messages := old(state.messages) + [input])
      ensures invoked == state
    {
      state := state.(messages := state.messages + [input]);
      invoked := state;
    }
  }
}
