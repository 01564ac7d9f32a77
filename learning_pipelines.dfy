/** The two knowledge-learning pipelines: their state record, their routing
    predicates, their graphs as data, `run` and the `get_pipeline` factory. */
module LearningPipelines {
  import opened Wrappers
  import opened Values
  import opened Chat
  import opened Workflow

  /** `ExampleAgentState`. The fields marked NotRequired may be absent (None).
      A knowledge-base entry keeps only its "related_topics" list (None when
      the entry has no such key). */
  datatype LearningState = LearningState(
    messages: seq<Message>,
    currentStep: string,
    timestamp: int,
    status: Option<string>,
    error: Option<string>,
    iterations: Option<int>,
    toolOutputs: Option<seq<Datum>>,
    knowledgeBase: Option<map<string, Option<seq<string>>>>,
    learningObjectives: Option<seq<string>>,
    understandingGaps: Option<seq<string>>,
    confidenceScores: Option<map<string, real>>,
    sources: Option<seq<map<string, string>>>,
    quizResults: Option<seq<map<string, Datum>>>,
    metadata: Option<map<string, Datum>>)

  /** The fields the routers index with `state[...]` are present. */
  predicate Routable(st: LearningState) {
    st.iterations.Some? && st.understandingGaps.Some? && st.confidenceScores.Some?
  }

  function KeyError(field: string): Outcome {
    Raised("KeyError: '" + field + "'")
  }

  /** `_should_continue_learning`. */
  function ShouldContinueLearning(st: LearningState): (o: Outcome)
    ensures st.understandingGaps.Some? && st.understandingGaps.value != [] ==> o == Label("research")
    ensures st.understandingGaps == Some([]) && st.confidenceScores.Some? ==>
      (o == Label("validate") <==> forall t :: t in st.confidenceScores.value ==> st.confidenceScores.value[t] > 0.8)
    ensures Routable(st) ==> o in {Label("research"), Label("validate"), Label("plan")}
  {
    match st.understandingGaps
    case None => KeyError("understanding_gaps")
    case Some(gaps) =>
      if |gaps| > 0 then Label("research")
      else
        match st.confidenceScores
        case None => KeyError("confidence_scores")
        case Some(scores) =>
          if forall t :: t in scores ==> scores[t] > 0.8 then Label("validate") else Label("plan")
  }

  /** `_decide_next_step`. */
  function DecideNextStep(st: LearningState): (o: Outcome)
    ensures st.iterations.Some? && st.iterations.value >= 5 ==> o == Label("end")
    ensures st.iterations.Some? && st.iterations.value < 5 && st.understandingGaps.Some? && st.understandingGaps.value != [] ==>
      o == Label("refine")
    ensures Routable(st) ==> o in {Label("end"), Label("refine"), Label("explore")}
  {
    match st.iterations
    case None => KeyError("iterations")
    case Some(i) =>
      if i >= 5 then Label("end")
      else
        match st.understandingGaps
        case None => KeyError("understanding_gaps")
        case Some(gaps) =>
          if |gaps| > 0 then Label("refine")
          else
            match st.confidenceScores
            case None => KeyError("confidence_scores")
            case Some(scores) =>
              if scores == map[] || exists t :: t in scores && scores[t] < 0.9 then Label("explore")
              else Label("end")
  }

  /** `min(values, default=0)` over the scores in iteration order. */
  function MinOrZero(vals: seq<real>): (m: real)
    ensures vals == [] ==> m == 0.0
    ensures vals != [] ==> (exists i :: 0 <= i < |vals| && vals[i] == m) && forall i :: 0 <= i < |vals| ==> m <= vals[i]
  {
    if |vals| == 0 then 0.0
    else if |vals| == 1 then vals[0]
    else
      var rest := MinOrZero(vals[1..]);
      assert forall i :: 1 <= i < |vals| ==> vals[1..][i-1] == vals[i];
      if vals[0] <= rest then vals[0] else rest
  }

  /** Below five iterations and with no gaps, `_decide_next_step` explores
      exactly when the smallest score (0 when there are none) is below 0.9,
      whatever order the scores are enumerated in. */
  lemma DecideNextStepByMinimum(st: LearningState, vals: seq<real>)
    requires Routable(st) && st.iterations.value < 5 && st.understandingGaps.value == []
    requires forall t :: t in st.confidenceScores.value ==> st.confidenceScores.value[t] in vals
    requires forall i :: 0 <= i < |vals| ==>
      exists t :: t in st.confidenceScores.value && st.confidenceScores.value[t] == vals[i]
    ensures DecideNextStep(st) == (if MinOrZero(vals) < 0.9 then Label("explore") else Label("end"))
  {
    var scores := st.confidenceScores.value;
    if vals != [] {
      var m := MinOrZero(vals);
      var i :| 0 <= i < |vals| && vals[i] == m;
      var tm :| tm in scores && scores[tm] == m;
      if m >= 0.9 {
        forall t | t in scores ensures scores[t] >= 0.9 {
          var j :| 0 <= j < |vals| && vals[j] == scores[t];
        }
      }
    }
  }

  datatype PipelineKind = StructuredLearning | AdaptiveLearning

  function StructuredWiring(): Wiring {
    Wiring(
      ["analyze", "plan", "research", "synthesize", "validate"],
      "analyze",
      [ Edge("analyze", Node("plan")),
        Edge("plan", Node("research")),
        Edge("research", Node("synthesize")),
        Branch("synthesize", "should_continue_learning",
               map[Label("research") := Node("research"),
                   Label("validate") := Node("validate"),
                   Label("plan") := Node("plan")]),
        Edge("validate", End)])
  }

  function AdaptiveWiring(): Wiring {
    Wiring(
      ["explore", "assess", "refine"],
      "explore",
      [ Edge("explore", Node("assess")),
        Branch("assess", "decide_next_step",
               map[Label("end") := End,
                   Label("refine") := Node("refine"),
                   Label("explore") := Node("explore")]),
        Edge("refine", Node("explore"))])
  }

  function WiringOf(kind: PipelineKind): Wiring {
    match kind
    case StructuredLearning => StructuredWiring()
    case AdaptiveLearning => AdaptiveWiring()
  }

  /** The labels each router returns on a routable state. */
  function RouterLabels(): map<string, set<Outcome>> {
    map["should_continue_learning" := {Label("research"), Label("validate"), Label("plan")},
        "decide_next_step" := {Label("end"), Label("refine"), Label("explore")}]
  }

  /** The routers by the names the wirings give them. */
  function Route(router: string, st: LearningState): Outcome {
    if router == "should_continue_learning" then ShouldContinueLearning(st) else DecideNextStep(st)
  }

  /** The node bodies are stubs that return the state they are given. */
  function StubEffect(node: string, st: LearningState): LearningState {
    st
  }

  /** Both graphs register every endpoint, and every label each predicate can
      return is a key of its outcome map. */
  lemma WiringsCovered(kind: PipelineKind)
    ensures Registered(WiringOf(kind))
    ensures Covers(WiringOf(kind), RouterLabels())
    ensures RoutesWithin(Route, RouterLabels(), Routable)
  {
    RoutersWithinLabels();
    var w := WiringOf(kind);
    forall rule | rule in w.rules
      ensures rule.from in w.nodes
      ensures rule.Edge? ==> TargetRegistered(w, rule.to)
      ensures rule.Branch? ==> forall o :: o in rule.outcomes ==> TargetRegistered(w, rule.outcomes[o])
      ensures rule.Branch? ==> rule.router in RouterLabels() && RouterLabels()[rule.router] <= rule.outcomes.Keys
    {
      var k :| 0 <= k < |w.rules| && w.rules[k] == rule;
    }
  }

  lemma RoutersWithinLabels()
    ensures RoutesWithin(Route, RouterLabels(), Routable)
  {
    forall r, x | Routable(x) && r in RouterLabels() ensures Route(r, x) in RouterLabels()[r] {
      if r == "should_continue_learning" {
        assert Route(r, x) == ShouldContinueLearning(x);
      } else {
        assert Route(r, x) == DecideNextStep(x);
      }
    }
  }

  /** Hence no walk of either graph from a routable state is unroutable. */
  lemma {:induction false} NeverUnroutable(kind: PipelineKind, st: LearningState, fuel: nat)
    requires Routable(st)
    ensures !Walk(WiringOf(kind), Route, StubEffect, WiringOf(kind).entry, st, fuel).stop.Unroutable?
  {
    WiringsCovered(kind);
    CoveredNeverUnroutable(WiringOf(kind), Route, StubEffect, RouterLabels(), Routable,
                           WiringOf(kind).entry, st, fuel);
  }

  /** In the structured graph only "validate" leads to END, and only the
      synthesize router leads to "validate". */
  lemma StructuredEndOnlyThroughValidate()
    ensures forall rule :: rule in StructuredWiring().rules && rule.Edge? && rule.to == End ==> rule.from == "validate"
    ensures forall rule :: rule in StructuredWiring().rules && rule.Branch? ==> End !in rule.outcomes.Values
    ensures forall rule :: rule in StructuredWiring().rules && rule.Edge? ==> rule.to != Node("validate")
    ensures forall rule :: rule in StructuredWiring().rules && rule.Branch? && Node("validate") in rule.outcomes.Values ==>
      rule.from == "synthesize" && rule.router == "should_continue_learning"
  {
    var outs := map[Label("research") := Node("research"), Label("validate") := Node("validate"), Label("plan") := Node("plan")];
    assert outs.Values == {Node("research"), Node("validate"), Node("plan")} by {
      assert outs[Label("research")] == Node("research");
      assert outs[Label("validate")] == Node("validate");
      assert outs[Label("plan")] == Node("plan");
    }
  }

  /** The stub nodes never raise `iterations` or clear the gaps, so with a gap
      open the adaptive graph cycles explore, assess, refine until the step
      bound runs out, from whichever of its nodes it starts. */
  lemma {:induction false} AdaptiveLoopsUntilOutOfFuel(st: LearningState, at: string, fuel: nat)
    requires Routable(st) && st.iterations.value < 5 && st.understandingGaps.value != []
    requires at in {"explore", "assess", "refine"}
    ensures Walk(AdaptiveWiring(), Route, StubEffect, at, st, fuel).stop == OutOfFuel
    decreases fuel
  {
    if fuel > 0 {
      var w := AdaptiveWiring();
      var next := if at == "explore" then "assess" else if at == "assess" then "refine" else "explore";
      if at == "explore" {
        assert RulesFrom(w.rules, at) == [Edge("explore", Node("assess"))];
      } else if at == "assess" {
        assert RulesFrom(w.rules, at) == [w.rules[1]];
        assert Route("decide_next_step", st) == Label("refine");
      } else {
        assert RulesFrom(w.rules, at) == [Edge("refine", Node("explore"))];
      }
      AdaptiveLoopsUntilOutOfFuel(st, next, fuel - 1);
    }
  }

  /** From five iterations on, the adaptive graph runs explore and assess
      and finishes. */
  lemma AdaptiveStopsAtIterationBound(st: LearningState, fuel: nat)
    requires st.iterations.Some? && st.iterations.value >= 5 && fuel >= 2
    ensures Walk(AdaptiveWiring(), Route, StubEffect, "explore", st, fuel) == Run(Finished, ["explore", "assess"], st)
  {
    var w := AdaptiveWiring();
    assert RulesFrom(w.rules, "explore") == [Edge("explore", Node("assess"))];
    assert RulesFrom(w.rules, "assess") == [w.rules[1]];
  }

  /** `get_pipeline`: a missing or empty type means "structured_learning";
      any other unknown name is a ValueError. */
  function GetPipeline(requested: Option<string>): (r: Result<PipelineKind, string>)
    ensures requested == None || requested == Some("") ==> r == Success(StructuredLearning)
    ensures requested == Some("structured_learning") ==> r == Success(StructuredLearning)
    ensures requested == Some("adaptive_learning") ==> r == Success(AdaptiveLearning)
    ensures r.Failure? <==>
      requested.Some? && requested.value !in {"", "structured_learning", "adaptive_learning"}
    ensures r.Failure? ==>
      r.error == "Unknown pipeline type: " + requested.value + ". Available types: structured_learning, adaptive_learning"
  {
    var name := StrOr(requested, "structured_learning");
    if name == "structured_learning" then Success(StructuredLearning)
    else if name == "adaptive_learning" then Success(AdaptiveLearning)
    else Failure("Unknown pipeline type: " + name + ". Available types: structured_learning, adaptive_learning")
  }

  /** The state a pipeline of `kind` starts from, created at time `now`. */
  function InitialState(kind: PipelineKind, now: int): LearningState {
    LearningState(
      messages := [],
      currentStep := if kind == StructuredLearning then "plan" else "explore",
      timestamp := now,
      status := Some("running"),
      error := None,
      iterations := Some(0),
      toolOutputs := Some([]),
      knowledgeBase := Some(map[]),
      learningObjectives := Some([]),
      understandingGaps := Some([]),
      confidenceScores := Some(map[]),
      sources := Some([]),
      quizResults := Some([]),
      metadata := Some(if kind == StructuredLearning then map[] else map["learning_path" := DList([])]))
  }

  /** A pipeline object: its kind fixes its graph; its state is updated in place. */
  class LearningPipeline {
    const kind: PipelineKind
    var state: LearningState

    constructor (kind: PipelineKind, now: int)
      ensures this.kind == kind && state == InitialState(kind, now)
      ensures Routable(state)
    {
      this.kind := kind;
      state := InitialState(kind, now);
    }

    /** `get_current_state`. */
    function CurrentState(): LearningState
      reads this
    {
      state
    }

    /** `run`: append the input to the message history and hand the state to
        the graph; returns the state that the graph is invoked on. */
    method Run(input: Message) returns (invoked: LearningState)
      modifies this
      ensures state == old(state).(messages := old(state.messages) + [input])
      ensures invoked == state
    {
      state := state.(messages := state.messages + [input]);
      invoked := state;
    }
  }
}
