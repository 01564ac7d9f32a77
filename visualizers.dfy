/** The data preparation of the two visualizers and the visualizer factory.
    Both read a learning pipeline's state; the graph they build is an
    undirected graph, so an edge is the set of its two ends. */
module Visualizers {
  import opened Wrappers
  import opened Values
  import opened LearningPipelines

  /** An undirected graph: its nodes and its edges (a self-loop is a
      one-element edge). */
  datatype Graph = Graph(nodes: set<string>, edges: set<set<string>>)

  /** The attributes drawn on a topic's node. */
  datatype NodeAttr = NodeAttr(confidence: real, status: string)

  /** `state.get("knowledge_base", {})`. */
  function KnowledgeOf(st: LearningState): map<string, Option<seq<string>>> {
    st.knowledgeBase.GetOr(map[])
  }

  /** `info.get("related_topics", [])`. */
  function Related(info: Option<seq<string>>): seq<string> {
    info.GetOr([])
  }

  /** The attributes of `topic`: its confidence score, 0 without one, and
      "gap" exactly when it is among the understanding gaps. */
  function AttrOf(st: LearningState, topic: string): (a: NodeAttr)
    ensures st.confidenceScores.Some? && topic in st.confidenceScores.value ==>
      a.confidence == st.confidenceScores.value[topic]
    ensures !(st.confidenceScores.Some? && topic in st.confidenceScores.value) ==> a.confidence == 0.0
    ensures a.status == "gap" <==> topic in st.understandingGaps.GetOr([])
    ensures a.status in {"gap", "learned"}
  {
    var scores := st.confidenceScores.GetOr(map[]);
    var confidence := if topic in scores then scores[topic] else 0.0;
    NodeAttr(confidence, if topic !in st.understandingGaps.GetOr([]) then "learned" else "gap")
  }

  /** The edges the related topics of the topics in `done` contribute. */
  function EdgesOf(kb: map<string, Option<seq<string>>>, done: set<string>): set<set<string>> {
    set t, r | t in done && t in kb && r in Related(kb[t]) :: {t, r}
  }

  /** The related topics of the topics in `done`. */
  function RelatedOf(kb: map<string, Option<seq<string>>>, done: set<string>): set<string> {
    set t, r | t in done && t in kb && r in Related(kb[t]) :: r
  }

  /** `KnowledgeGraphVisualizer.process_data`: a node per topic, an edge from
      each topic to each of its related topics (which become nodes too), and
      attributes for exactly the topics. */
  method ProcessKnowledgeGraph(st: LearningState) returns (g: Graph, attrs: map<string, NodeAttr>)
    ensures attrs.Keys == KnowledgeOf(st).Keys
    ensures forall t :: t in attrs ==> attrs[t] == AttrOf(st, t)
    ensures g.nodes == KnowledgeOf(st).Keys + RelatedOf(KnowledgeOf(st), KnowledgeOf(st).Keys)
    ensures g.edges == EdgesOf(KnowledgeOf(st), KnowledgeOf(st).Keys)
  {
    var kb := KnowledgeOf(st);
    var topics := ItemsOrder(kb);
    g := Graph({}, {});
    attrs := map[];
    for i := 0 to |topics|
      invariant Elems(topics[..i]) <= kb.Keys
      invariant attrs.Keys == Elems(topics[..i])
      invariant forall t :: t in attrs ==> attrs[t] == AttrOf(st, t)
      invariant g == GraphOf(kb, topics[..i])
    {
      var topic := topics[i];
      attrs := attrs[topic := AttrOf(st, topic)];
      g := AddRelated(Graph(g.nodes + {topic}, g.edges), topic, Related(kb[topic]));
      GraphOfSnoc(kb, topics[..i], topic);
      assert topics[..i + 1] == topics[..i] + [topic];
    }
    assert topics[..|topics|] == topics;
    assert Elems(topics) == kb.Keys;
    GraphOfSets(kb, topics);
  }

  /** The order `knowledge.items()` yields the topics in: each once. */
  method ItemsOrder(kb: map<string, Option<seq<string>>>) returns (topics: seq<string>)
    ensures forall t :: t in topics <==> t in kb
    ensures forall i, j :: 0 <= i < j < |topics| ==> topics[i] != topics[j]
  {
    topics := [];
    var rest := kb;
    while rest != map[]
      invariant forall t :: t in kb <==> t in topics || t in rest
      invariant forall t :: t in rest ==> t !in topics
      invariant forall i, j :: 0 <= i < j < |topics| ==> topics[i] != topics[j]
      decreases |rest|
    {
      var k :| k in rest;
      topics := topics + [k];
      rest := rest - {k};
    }
  }

  /** The topics of `order`. */
  ghost function Elems(order: seq<string>): set<string> {
    set t | t in order
  }

  /** The graph after processing the topics of `order`, in that order. */
  ghost function GraphOf(kb: map<string, Option<seq<string>>>, order: seq<string>): Graph
    requires Elems(order) <= kb.Keys
    decreases |order|
  {
    if order == [] then Graph({}, {})
    else
      var front := order[..|order| - 1];
      var topic := order[|order| - 1];
      assert Elems(front) <= Elems(order);
      var g := GraphOf(kb, front);
      Graph(g.nodes + {topic} + Neighbours(Related(kb[topic])),
            g.edges + Spokes(topic, Related(kb[topic])))
  }

  /** Processing one more topic after `order`. */
  lemma GraphOfSnoc(kb: map<string, Option<seq<string>>>, order: seq<string>, topic: string)
    requires Elems(order) <= kb.Keys && topic in kb
    ensures Elems(order + [topic]) == Elems(order) + {topic}
    ensures GraphOf(kb, order + [topic]) ==
      var g := GraphOf(kb, order);
      Graph(g.nodes + {topic} + Neighbours(Related(kb[topic])),
            g.edges + Spokes(topic, Related(kb[topic])))
  {
    assert (order + [topic])[..|order|] == order;
  }

  /** The graph after any order is the one the topics' sets describe. */
  lemma {:induction false} GraphOfSets(kb: map<string, Option<seq<string>>>, order: seq<string>)
    requires Elems(order) <= kb.Keys
    ensures GraphOf(kb, order).nodes == Elems(order) + RelatedOf(kb, Elems(order))
    ensures GraphOf(kb, order).edges == EdgesOf(kb, Elems(order))
    decreases |order|
  {
    if order == [] {
      assert RelatedOf(kb, {}) == {} && EdgesOf(kb, {}) == {};
    } else {
      var front := order[..|order| - 1];
      var topic := order[|order| - 1];
      assert order == front + [topic];
      assert Elems(order) == Elems(front) + {topic};
      GraphOfSets(kb, front);
      StepGraph(kb, Elems(front), topic, GraphOf(kb, front), GraphOf(kb, order));
    }
  }

  /** The topics of `related`. */
  function Neighbours(related: seq<string>): set<string> {
    set r | r in related
  }

  /** The edges from `topic` to each of `related`. */
  function Spokes(topic: string, related: seq<string>): set<set<string>> {
    set r | r in related :: {topic, r}
  }

  /** The inner loop: an edge from `topic` to each related topic. */
  method AddRelated(g: Graph, topic: string, related: seq<string>) returns (g': Graph)
    ensures g'.nodes == g.nodes + Neighbours(related)
    ensures g'.edges == g.edges + Spokes(topic, related)
  {
    g' := g;
    for j := 0 to |related|
      invariant g'.nodes == g.nodes + set r | r in related[..j]
      invariant g'.edges == g.edges + set r | r in related[..j] :: {topic, r}
    {
      g' := Graph(g'.nodes + {related[j]}, g'.edges + {{topic, related[j]}});
      assert related[..j + 1] == related[..j] + [related[j]];
    }
    assert related[..|related|] == related;
  }

  /** The loop body keeps the graph invariant. */
  lemma StepGraph(kb: map<string, Option<seq<string>>>, done: set<string>, topic: string, g: Graph, added: Graph)
    requires topic in kb
    requires g.nodes == done + RelatedOf(kb, done) && g.edges == EdgesOf(kb, done)
    requires added.nodes == g.nodes + {topic} + Neighbours(Related(kb[topic]))
    requires added.edges == g.edges + Spokes(topic, Related(kb[topic]))
    ensures added.nodes == (done + {topic}) + RelatedOf(kb, done + {topic})
    ensures added.edges == EdgesOf(kb, done + {topic})
  {
    AddTopic(kb, done, topic);
  }

  /** Processing one more topic adds its related topics and its edges. */
  lemma AddTopic(kb: map<string, Option<seq<string>>>, done: set<string>, topic: string)
    requires topic in kb
    ensures RelatedOf(kb, done + {topic}) == RelatedOf(kb, done) + Neighbours(Related(kb[topic]))
    ensures EdgesOf(kb, done + {topic}) == EdgesOf(kb, done) + Spokes(topic, Related(kb[topic]))
  {
  }

  /** `LearningProgressVisualizer.process_data`: one record per quiz result,
      in order, holding exactly its timestamp, score and topic; a result
      without one of them raises the KeyError of the first missing key. */
  function ProgressRecords(results: seq<map<string, Datum>>): (r: Result<seq<map<string, Datum>>, string>)
    ensures r.Success? <==> forall i :: 0 <= i < |results| ==> {"timestamp", "score", "topic"} <= results[i].Keys
    ensures r.Success? ==> |r.value| == |results|
    ensures r.Success? ==> forall i :: 0 <= i < |results| ==>
      && r.value[i].Keys == {"timestamp", "score", "topic"}
      && r.value[i]["timestamp"] == results[i]["timestamp"]
      && r.value[i]["score"] == results[i]["score"]
      && r.value[i]["topic"] == results[i]["topic"]
  {
    if results == [] then Success([])
    else
      var first := results[0];
      if "timestamp" !in first then Failure("KeyError: 'timestamp'")
      else if "score" !in first then Failure("KeyError: 'score'")
      else if "topic" !in first then Failure("KeyError: 'topic'")
      else
        match ProgressRecords(results[1..])
        case Failure(e) => Failure(e)
        case Success(rest) =>
          assert forall i :: 1 <= i < |results| ==> results[i] == results[1..][i - 1];
          Success([map["timestamp" := first["timestamp"], "score" := first["score"], "topic" := first["topic"]]] + rest)
  }

  /** The progress data of a state: `state.get("quiz_results", [])`. */
  function ProcessLearningProgress(st: LearningState): (r: Result<seq<map<string, Datum>>, string>)
    ensures st.quizResults == None ==> r == Success([])
  {
    ProgressRecords(st.quizResults.GetOr([]))
  }

  datatype VisualizerKind = KnowledgeGraphVisualizer | LearningProgressVisualizer

  /** `get_visualizer`: a missing or empty type means "knowledge_graph"; the
      two documented types without a class are rejected like any other name. */
  function GetVisualizer(requested: Option<string>): (r: Result<VisualizerKind, string>)
    ensures requested == None || requested == Some("") ==> r == Success(KnowledgeGraphVisualizer)
    ensures requested == Some("knowledge_graph") ==> r == Success(KnowledgeGraphVisualizer)
    ensures requested == Some("learning_progress") ==> r == Success(LearningProgressVisualizer)
    ensures r.Failure? <==> requested.Some? && requested.value !in {"", "knowledge_graph", "learning_progress"}
    ensures r.Failure? ==>
      r.error == "Unknown visualizer type: " + requested.value + ". Available types: knowledge_graph, learning_progress"
  {
    var name := StrOr(requested, "knowledge_graph");
    if name == "knowledge_graph" then Success(KnowledgeGraphVisualizer)
    else if name == "learning_progress" then Success(LearningProgressVisualizer)
    else Failure("Unknown visualizer type: " + name + ". Available types: knowledge_graph, learning_progress")
  }

  /** In particular the heatmap and topic-network types raise. */
  lemma DocumentedButMissing()
    ensures GetVisualizer(Some("confidence_heatmap")).Failure?
    ensures GetVisualizer(Some("topic_network")).Failure?
  {
  }
}
