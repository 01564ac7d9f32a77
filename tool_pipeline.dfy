/** The tool-using agent graph: its routers (`should_continue`, `choose_tool`,
    `novelty_decision`), the validation `evaluate_novelty` applies to the
    judge's reply, `call_model` and the node functions that extend the
    message history, and the graph as data. Every model, tool and judge reply
    is a parameter; `json.loads` is a parser parameter. */
module ToolPipeline {
  import opened Wrappers
  import opened Text
  import opened Chat
  import opened Json
  import opened Workflow

  /** The exceptions these functions let escape. */
  datatype Raise =
    | IndexError                    // `messages[-1]` or `messages[-2]` on a short history
    | ValueError(message: string)   // an unsupported model name
    | DecodeError(message: string)  // `json.loads` failed
    | AttributeError(value: Json)   // `.get` called on a parsed value that is not an object

  /** `should_continue`: stop once any message in the history carries tool calls. */
  function ShouldContinue(history: seq<Message>): (o: Outcome)
    ensures o == Label("end") <==> AnyToolCalls(history)
    ensures o == Label("continue") <==> !AnyToolCalls(history)
  {
    if AnyToolCalls(history) then Label("end") else Label("continue")
  }

  /** `x in s` of `choose_tool` on the lower-cased last message. */
  predicate MentionsGraphQuery(content: string) {
    Contains(Lower(content), "neo4j") || Contains(Lower(content), "match")
  }

  /** `choose_tool`: "web" until some message carries tool calls; then
      "neo4j" exactly when the last message mentions neo4j or match. */
  function ChooseTool(history: seq<Message>): (o: Outcome)
    ensures !AnyToolCalls(history) ==> o == Label("web")
    ensures AnyToolCalls(history) ==>
      (o == Label("neo4j") <==> MentionsGraphQuery(history[|history| - 1].content))
    ensures o in {Label("neo4j"), Label("web")}
  {
    if !AnyToolCalls(history) then Label("web")
    else if MentionsGraphQuery(history[|history| - 1].content) then Label("neo4j")
    else Label("web")
  }

  /** Lower-casing keeps an occurrence where it is. */
  lemma LowerOccurs(s: string, t: string, i: int)
    requires OccursAt(s, t, i)
    ensures OccursAt(Lower(s), Lower(t), i)
  {
    forall k | 0 <= k < |t| ensures Lower(s)[i + k] == Lower(t)[k] {
      assert s[i..i + |t|][k] == s[i + k];
    }
    assert Lower(s)[i..i + |t|] == Lower(t);
  }

  /** So the keyword test ignores case: a last message holding "MATCH" at
      any offset sends the agent to neo4j once tools have been used. */
  lemma ChooseToolIgnoresCase(history: seq<Message>, i: int)
    requires AnyToolCalls(history)
    requires OccursAt(history[|history| - 1].content, "MATCH", i)
    ensures ChooseTool(history) == Label("neo4j")
  {
    var content := history[|history| - 1].content;
    LowerOccurs(content, "MATCH", i);
    assert Lower("MATCH") == "match";
    ContainsIff(Lower(content), "match");
  }

  /** The object `json.loads` makes of the stripped last message, if it is one. */
  function ParsedLast(history: seq<Message>, parse: Parser): (r: Option<map<string, Json>>)
    ensures r.Some? ==> history != [] && parse(Strip(history[|history| - 1].content)) == Success(JObject(r.value))
    ensures r == None && history != [] ==> !parse(Strip(history[|history| - 1].content)).Success?
                                           || !parse(Strip(history[|history| - 1].content)).value.JObject?
  {
    if history == [] then None
    else
      match parse(Strip(history[|history| - 1].content))
      case Success(JObject(fields)) => Some(fields)
      case _ => None
  }

  /** `novelty_decision`: the "decision" of the last message's JSON, "fail"
      when there is no last message, it does not parse, it is not an object
      or it has no decision. Any other decision string is returned as it is. */
  function NoveltyDecision(history: seq<Message>, parse: Parser): (o: Outcome)
    ensures ParsedLast(history, parse) == None ==> o == Label("fail")
    ensures ParsedLast(history, parse).Some? ==>
      var fields := ParsedLast(history, parse).value;
      && ("decision" !in fields ==> o == Label("fail"))
      && ("decision" in fields && fields["decision"].JString? ==> o == Label(fields["decision"].s))
      && ("decision" in fields && !fields["decision"].JString? ==> o == NonString)
  {
    match ParsedLast(history, parse)
    case None => Label("fail")
    case Some(fields) =>
      match GetOr(fields, "decision", JString("fail"))
      case JString(d) => Label(d)
      case _ => NonString
  }

  /** The decision lands on a key of its outcome map exactly when the JSON
      has no usable decision or its decision is "pass" or "fail". */
  lemma NoveltyDecisionCovered(history: seq<Message>, parse: Parser)
    ensures NoveltyDecision(history, parse) in {Label("pass"), Label("fail")} <==>
      (ParsedLast(history, parse) == None || "decision" !in ParsedLast(history, parse).value
       || ParsedLast(history, parse).value["decision"] in {JString("pass"), JString("fail")})
  {
  }

  /** A judge answering {"decision": "maybe"} makes the router answer a
      label its outcome map lacks. */
  lemma NoveltyDecisionEscapes(content: string)
    ensures var parse: Parser := (_: string) => Success(JObject(map["decision" := JString("maybe")]));
      NoveltyDecision([AiMessage(content)], parse) == Label("maybe")
  {
  }

  /** What `evaluate_novelty` returns, before `json.dumps`: the judge's
      object as it was, or a failing verdict with its reason. */
  datatype Verdict = Passed(result: Json) | Rejected(reason: string)

  const UnparsedDecision := "無法解析決策"
  const DecodeFailure := "解析 JSON 失敗："

  /** `d["decision"] in ["pass", "fail"]` for a parsed object. */
  predicate DecisionValid(fields: map<string, Json>) {
    "decision" in fields && fields["decision"] in {JString("pass"), JString("fail")}
  }

  /** The validation of `evaluate_novelty` on the judge's reply. `"decision"
      in result` is a key test on an object, a membership test on a list and
      a substring test on a string; indexing a list or string by "decision",
      or testing membership in a number, boolean or null, raises a TypeError
      whose text is `typeError`. Every exception becomes a failing verdict. */
  function ValidateNovelty(reply: string, parse: Parser, typeError: string): (v: Verdict)
    ensures parse(Strip(reply)).Failure? ==> v == Rejected(DecodeFailure + parse(Strip(reply)).error)
    ensures v.Passed? <==>
      parse(Strip(reply)).Success? && parse(Strip(reply)).value.JObject? && DecisionValid(parse(Strip(reply)).value.fields)
    ensures v.Passed? ==> v.result == parse(Strip(reply)).value
    ensures v.Rejected? && parse(Strip(reply)).Success? && parse(Strip(reply)).value.JObject? ==>
      v.reason == UnparsedDecision
  {
    match parse(Strip(reply))
    case Failure(e) => Rejected(DecodeFailure + e)
    case Success(result) =>
      match result
      case JObject(fields) =>
        if DecisionValid(fields) then Passed(result) else Rejected(UnparsedDecision)
      case JArray(items) =>
        if JString("decision") !in items then Rejected(UnparsedDecision) else Rejected(DecodeFailure + typeError)
      case JString(s) =>
        if !Contains(s, "decision") then Rejected(UnparsedDecision) else Rejected(DecodeFailure + typeError)
      case JScalar => Rejected(DecodeFailure + typeError)
  }

  /** The JSON object a verdict is dumped as. */
  function VerdictJson(v: Verdict): Json {
    match v
    case Passed(result) => result
    case Rejected(reason) => JObject(map["decision" := JString("fail"), "reason" := JString(reason)])
  }

  /** Whatever the judge says, the verdict's own decision is "pass" or "fail",
      and "pass" only when the judge said "pass". */
  lemma VerdictDecides(reply: string, parse: Parser, typeError: string)
    ensures var j := VerdictJson(ValidateNovelty(reply, parse, typeError));
      j.JObject? && DecisionValid(j.fields)
    ensures var j := VerdictJson(ValidateNovelty(reply, parse, typeError));
      j.fields["decision"] == JString("pass") ==> parse(Strip(reply)) == Success(j)
  {
  }

  /** So when the last message reads back as a verdict, `novelty_decision`
      answers a key of its map. */
  lemma VerdictRoutes(history: seq<Message>, parse: Parser, v: Verdict)
    requires history != [] && parse(Strip(history[|history| - 1].content)) == Success(VerdictJson(v))
    requires v.Passed? ==> v.result.JObject? && DecisionValid(v.result.fields)
    ensures NoveltyDecision(history, parse) in {Label("pass"), Label("fail")}
  {
    NoveltyDecisionCovered(history, parse);
  }

  /** `_get_model`: only "openai", the default when the configuration names no
      model, is supported. */
  function CheckModel(configured: Option<string>): (r: Option<Raise>)
    ensures r == None <==> configured == None || configured == Some("openai")
    ensures r.Some? ==> r.value == ValueError("Unsupported model type: " + configured.value)
  {
    var name := configured.GetOr("openai");
    if name == "openai" then None else Some(ValueError("Unsupported model type: " + name))
  }

  /** `r` is `history` with exactly one message put after it. */
  predicate AppendsOne(history: seq<Message>, r: seq<Message>) {
    |r| == |history| + 1 && r[..|history|] == history
  }

  /** `call_model`: the model's `response` put after the history. */
  function CallModel(history: seq<Message>, configured: Option<string>, response: Message): (r: Result<seq<Message>, Raise>)
    ensures r.Failure? <==> CheckModel(configured).Some?
    ensures r.Failure? ==> r.error == CheckModel(configured).value
    ensures r.Success? ==> AppendsOne(history, r.value) && r.value[|history|] == response
  {
    match CheckModel(configured)
    case Some(e) => Failure(e)
    case None => Success(history + [response])
  }

  /** The "neo4j_action", "web_action" and "novelty_check" nodes: the tool's
      answer to the last message's content, as a system message. */
  function ToolAction(history: seq<Message>, tool: string -> string): (r: Result<seq<Message>, Raise>)
    ensures r.Failure? <==> history == []
    ensures r.Failure? ==> r.error == IndexError
    ensures r.Success? ==>
      AppendsOne(history, r.value) && r.value[|history|] == SystemMessage(tool(history[|history| - 1].content))
  {
    if history == [] then Failure(IndexError)
    else Success(history + [SystemMessage(tool(history[|history| - 1].content))])
  }

  const UnknownReason := "未知原因"

  /** The "regenerate" node: the regeneration tool applied to the second-last
      message and the "reason" of the last one's JSON. Nothing here catches:
      a short history, a reply that does not parse and a parsed value without
      `.get` all raise. */
  function Regenerate(history: seq<Message>, parse: Parser, tool: (string, Json) -> string): (r: Result<seq<Message>, Raise>)
    ensures |history| < 2 ==> r == Failure(IndexError)
    ensures |history| >= 2 && parse(history[|history| - 1].content).Failure? ==>
      r == Failure(DecodeError(parse(history[|history| - 1].content).error))
    ensures |history| >= 2 && parse(history[|history| - 1].content).Success? ==>
      var j := parse(history[|history| - 1].content).value;
      && (!j.JObject? ==> r == Failure(AttributeError(j)))
      && (j.JObject? ==>
            && r.Success? && AppendsOne(history, r.value)
            && r.value[|history|] == SystemMessage(tool(history[|history| - 2].content,
                                                        if "reason" in j.fields then j.fields["reason"] else JString(UnknownReason))))
  {
    if |history| < 2 then Failure(IndexError)
    else
      match parse(history[|history| - 1].content)
      case Failure(e) => Failure(DecodeError(e))
      case Success(j) =>
        match j
        case JObject(fields) =>
          var reason := GetOr(fields, "reason", JString(UnknownReason));
          Success(history + [SystemMessage(tool(history[|history| - 2].content, reason))])
        case _ => Failure(AttributeError(j))
  }

  /** Appending never removes a tool call: once `should_continue` says "end"
      after a node, it says so after every later node too. */
  lemma ToolUseSticks(history: seq<Message>, r: seq<Message>)
    requires AppendsOne(history, r)
    requires AnyToolCalls(history)
    ensures AnyToolCalls(r) && ShouldContinue(r) == Label("end")
  {
    var i :| 0 <= i < |history| && HasToolCalls(history[i]);
    assert r[i] == r[..|history|][i] == history[i];
  }

  /** The graph; "agent" is its entry. */
  function ToolWiring(): Wiring {
    Wiring(
      ["agent", "neo4j_action", "web_action", "novelty_check", "regenerate"],
      "agent",
      [ Branch("agent", "choose_tool", map[Label("neo4j") := Node("neo4j_action"), Label("web") := Node("novelty_check")]),
        Branch("novelty_check", "novelty_decision", map[Label("pass") := Node("web_action"), Label("fail") := Node("regenerate")]),
        Edge("neo4j_action", Node("agent")),
        Edge("web_action", Node("agent")),
        Edge("regenerate", Node("agent")),
        Branch("agent", "should_continue", map[Label("continue") := Node("agent"), Label("end") := End])])
  }

  /** The routers by the names the wiring gives them. */
  function Route(parse: Parser, router: string, history: seq<Message>): Outcome {
    if router == "choose_tool" then ChooseTool(history)
    else if router == "novelty_decision" then NoveltyDecision(history, parse)
    else ShouldContinue(history)
  }

  /** Every rule leaves a registered node and leads to one or to END. */
  lemma ToolWiringRegistered()
    ensures Registered(ToolWiring())
  {
    var w := ToolWiring();
    forall rule | rule in w.rules
      ensures rule.from in w.nodes
      ensures rule.Edge? ==> TargetRegistered(w, rule.to)
      ensures rule.Branch? ==> forall o :: o in rule.outcomes ==> TargetRegistered(w, rule.outcomes[o])
    {
      var k :| 0 <= k < |w.rules| && w.rules[k] == rule;
    }
  }

  /** The outcome maps are keyed exactly by {neo4j, web}, {pass, fail} and
      {continue, end}, which covers every answer of `choose_tool` and
      `should_continue`. */
  lemma ToolWiringCovered(parse: Parser, history: seq<Message>)
    ensures ToolWiring().rules[0].outcomes.Keys == {Label("neo4j"), Label("web")}
    ensures ToolWiring().rules[1].outcomes.Keys == {Label("pass"), Label("fail")}
    ensures ToolWiring().rules[5].outcomes.Keys == {Label("continue"), Label("end")}
    ensures RouterCovered(ToolWiring(), "choose_tool", {Route(parse, "choose_tool", history)})
    ensures RouterCovered(ToolWiring(), "should_continue", {Route(parse, "should_continue", history)})
  {
    var w := ToolWiring();
    forall rule | rule in w.rules && rule.Branch? && rule.router == "choose_tool"
      ensures {Route(parse, "choose_tool", history)} <= rule.outcomes.Keys
    {
      var k :| 0 <= k < |w.rules| && w.rules[k] == rule;
    }
    forall rule | rule in w.rules && rule.Branch? && rule.router == "should_continue"
      ensures {Route(parse, "should_continue", history)} <= rule.outcomes.Keys
    {
      var k :| 0 <= k < |w.rules| && w.rules[k] == rule;
    }
  }

  /** "agent" is left by two routers, so whatever the nodes and routers do,
      a walk from the entry runs "agent" and stops there ambiguous. */
  lemma AgentHasTwoRouters(route: (string, seq<Message>) -> Outcome,
                           effect: (string, seq<Message>) -> seq<Message>, history: seq<Message>, fuel: nat)
    requires fuel >= 1
    ensures RulesFrom(ToolWiring().rules, "agent") == [ToolWiring().rules[0], ToolWiring().rules[5]]
    ensures Walk(ToolWiring(), route, effect, "agent", history, fuel)
      == Run(Ambiguous("agent"), ["agent"], effect("agent", history))
  {
    var rules := ToolWiring().rules;
    RulesFromOne(rules[1..], "agent", 4);
  }
}
