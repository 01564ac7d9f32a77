/** The metric calculators and their registry. A metric object keeps the
    last value it calculated; the state it measures is seen only through the
    two attributes the calculators read. */
module Metrics {
  import opened Wrappers
  import opened Values

  /** `MetricType`. */
  datatype MetricKind = NumKnowledgeNodes | NumKnowledgeEdges | NodeRelevance | AveragePerplexity

  /** The attributes of an agent state a metric reads; None when the state
      has no such attribute. */
  datatype Measured = Measured(knowledgeGraph: Option<Datum>, perplexity: Option<Datum>)

  /** Why a calculation raised. */
  datatype MetricError =
    | MissingAttribute(name: string)  // the state has no such attribute
    | NoGet                           // `knowledge_graph` is not a dict
    | NoLen                           // the entry has no length

  /** `len(d)`, for the values that have one. */
  function Len(d: Datum): (n: Option<nat>)
    ensures d.DList? ==> n == Some(|d.items|)
    ensures d.DStr? ==> n == Some(|d.s|)
    ensures d.DDict? ==> n == Some(|d.entries|)
    ensures n == None <==> !(d.DList? || d.DStr? || d.DDict?)
  {
    match d
    case DList(items) => Some(|items|)
    case DStr(s) => Some(|s|)
    case DDict(entries) => Some(|entries|)
    case _ => None
  }

  /** `len(state.knowledge_graph.get(key, []))`, 0 when the state has no
      knowledge graph at all. */
  function CountEntries(m: Measured, key: string): (r: Result<Datum, MetricError>)
    ensures m.knowledgeGraph == None ==> r == Success(DInt(0))
    ensures m.knowledgeGraph.Some? && m.knowledgeGraph.value.DDict? && key !in m.knowledgeGraph.value.entries ==>
      r == Success(DInt(0))
    ensures m.knowledgeGraph.Some? && m.knowledgeGraph.value.DDict? && key in m.knowledgeGraph.value.entries
            && m.knowledgeGraph.value.entries[key].DList? ==>
      r == Success(DInt(|m.knowledgeGraph.value.entries[key].items|))
    ensures m.knowledgeGraph.Some? && !m.knowledgeGraph.value.DDict? ==> r == Failure(NoGet)
    ensures r.Success? ==> r.value.DInt? && r.value.i >= 0
  {
    match m.knowledgeGraph
    case None => Success(DInt(0))
    case Some(DDict(entries)) =>
      var entry := if key in entries then entries[key] else DList([]);
      (match Len(entry)
       case Some(n) => Success(DInt(n))
       case None => Failure(NoLen))
    case Some(_) => Failure(NoGet)
  }

  /** The value each registered calculator computes. */
  function Measure(kind: MetricKind, m: Measured): (r: Result<Datum, MetricError>)
    requires kind in MetricClasses()
    ensures kind == NumKnowledgeNodes ==> r == CountEntries(m, "nodes")
    ensures kind == NumKnowledgeEdges ==> r == CountEntries(m, "edges")
    ensures kind == AveragePerplexity ==>
      (if m.perplexity.Some? then r == Success(m.perplexity.value) else r == Failure(MissingAttribute("perplexity")))
  {
    match kind
    case NumKnowledgeNodes => CountEntries(m, "nodes")
    case NumKnowledgeEdges => CountEntries(m, "edges")
    case AveragePerplexity =>
      (match m.perplexity
       case Some(p) => Success(p)
       case None => Failure(MissingAttribute("perplexity")))
  }

  /** The node and edge counts differ only in the key they count: a graph
      whose node and edge lists are the same counts the same. */
  lemma NodesAndEdgesAlike(entries: map<string, Datum>, perplexity: Option<Datum>)
    requires "nodes" in entries <==> "edges" in entries
    requires "nodes" in entries ==> entries["nodes"] == entries["edges"]
    ensures Measure(NumKnowledgeNodes, Measured(Some(DDict(entries)), perplexity))
      == Measure(NumKnowledgeEdges, Measured(Some(DDict(entries)), perplexity))
  {
  }

  /** `metric_classes`: the class registered for each kind. */
  function MetricClasses(): map<MetricKind, string> {
    map[NumKnowledgeNodes := "NumKnowledgeNodes",
        NumKnowledgeEdges := "NumKnowledgeEdges",
        AveragePerplexity := "AveragePerplexity"]
  }

  /** Every kind but NODE_RELEVANCE has a class. */
  lemma RegistryMissesNodeRelevance(kind: MetricKind)
    ensures kind in MetricClasses() <==> kind != NodeRelevance
  {
  }

  /** A metric object; `value` is what it last calculated (None before any). */
  class Metric {
    const kind: MetricKind
    var value: Option<Datum>

    constructor (kind: MetricKind)
      requires kind in MetricClasses()
      ensures this.kind == kind && value == None
    {
      this.kind := kind;
      value := None;
    }

    /** `calculate`: store the measurement in `value` and return it; a
        calculation that raises leaves `value` as it was. */
    method Calculate(m: Measured) returns (r: Result<Datum, MetricError>)
      requires kind in MetricClasses()
      modifies this
      ensures r == Measure(kind, m)
      ensures r.Success? ==> value == Some(r.value)
      ensures r.Failure? ==> value == old(value)
    {
      r := Measure(kind, m);
      if r.Success? {
        value := Some(r.value);
      }
    }
  }

  /** `get_metric`: a fresh metric of the registered class, or the KeyError
      of the lookup. */
  method GetMetric(kind: MetricKind) returns (r: Result<Metric, string>)
    ensures r.Failure? <==> kind !in MetricClasses()
    ensures r.Failure? ==> r.error == "KeyError: <MetricType.NODE_RELEVANCE: 'node_relevance'>"
    ensures r.Success? ==> fresh(r.value) && r.value.kind == kind && r.value.value == None
  {
    if kind !in MetricClasses() {
      RegistryMissesNodeRelevance(kind);
      return Failure("KeyError: <MetricType.NODE_RELEVANCE: 'node_relevance'>");
    }
    var metric := new Metric(kind);
    return Success(metric);
  }
}
