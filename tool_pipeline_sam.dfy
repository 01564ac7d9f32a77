/** The second tool-using agent graph: `choose_tool` reads the tool calls of
    the most recent message that has any, `regenerate` falls back to a default
    reason instead of raising, `call_model` returns the response alone, and
    `query_neo4j` answers before it reaches the database. Its graph registers
    the novelty tool node itself as a router. */
module ToolPipelineSam {
  import opened Wrappers
  import opened Text
  import opened Chat
  import opened Json
  import opened Workflow
  import ToolPipeline

  /** `call.get("name", "").lower() == "query_neo4j"`. */
  predicate IsNeo4jCall(call: ToolCall) {
    Lower(call.name.GetOr("")) == "query_neo4j"
  }

  /** The inner loop of `choose_tool`: some call of the message is a neo4j query. */
  function AnyNeo4jCall(calls: seq<ToolCall>): (b: bool)
    ensures b <==> exists k :: 0 <= k < |calls| && IsNeo4jCall(calls[k])
  {
    if calls == [] then false
    else if IsNeo4jCall(calls[0]) then true
    else
      var rest := AnyNeo4jCall(calls[1..]);
      assert forall k :: 1 <= k < |calls| ==> calls[k] == calls[1..][k - 1];
      rest
  }

  /** `choose_tool`: scan the history from the newest message back; the first
      message with tool calls decides, "web" when none has any. */
  function ChooseTool(history: seq<Message>): (o: Outcome)
    ensures o in {Label("neo4j"), Label("web")}
    ensures !AnyToolCalls(history) ==> o == Label("web")
    decreases |history|
  {
    if history == [] then Label("web")
    else
      var last := history[|history| - 1];
      if HasToolCalls(last) then
        (if AnyNeo4jCall(last.toolCalls) then Label("neo4j") else Label("web"))
      else
        var older := history[..|history| - 1];
        assert forall i :: 0 <= i < |older| ==> older[i] == history[i];
        ChooseTool(older)
  }

  /** The answer is fixed by the newest message `i` with tool calls: "neo4j"
      exactly when one of its calls is named query_neo4j, in any case. */
  lemma {:induction false} ChooseToolByNewestToolUse(history: seq<Message>, i: nat)
    requires i < |history| && HasToolCalls(history[i])
    requires forall j :: i < j < |history| ==> !HasToolCalls(history[j])
    ensures ChooseTool(history) == if AnyNeo4jCall(history[i].toolCalls) then Label("neo4j") else Label("web")
    decreases |history|
  {
    if i < |history| - 1 {
      var older := history[..|history| - 1];
      assert older[i] == history[i];
      ChooseToolByNewestToolUse(older, i);
    }
  }

  /** Messages older than the newest tool use are never looked at. */
  lemma {:induction false} ChooseToolIgnoresOlder(older: seq<Message>, recent: seq<Message>)
    requires AnyToolCalls(recent)
    ensures ChooseTool(older + recent) == ChooseTool(recent)
    decreases |recent|
  {
    var h := older + recent;
    assert h[|h| - 1] == recent[|recent| - 1];
    if !HasToolCalls(recent[|recent| - 1]) {
      var front := recent[..|recent| - 1];
      var i :| 0 <= i < |recent| && HasToolCalls(recent[i]);
      assert front[i] == recent[i];
      assert h[..|h| - 1] == older + front;
      ChooseToolIgnoresOlder(older, front);
    }
  }

  /** `novelty_result.get("reason", "未知原因")` inside the `try`: the reason of
      the stripped last message's JSON object, the default when there is no
      such object or it has no reason. */
  function ReasonOf(content: string, parse: Parser): (r: Json)
    ensures r != JString(ToolPipeline.UnknownReason) ==>
      parse(Strip(content)).Success? && parse(Strip(content)).value.JObject?
      && "reason" in parse(Strip(content)).value.fields && parse(Strip(content)).value.fields["reason"] == r
    ensures parse(Strip(content)).Failure? ==> r == JString(ToolPipeline.UnknownReason)
    ensures parse(Strip(content)).Success? && !parse(Strip(content)).value.JObject? ==>
      r == JString(ToolPipeline.UnknownReason)
  {
    match parse(Strip(content))
    case Success(JObject(fields)) => GetOr(fields, "reason", JString(ToolPipeline.UnknownReason))
    case _ => JString(ToolPipeline.UnknownReason)
  }

  /** `regenerate`: only a history shorter than two messages raises; the
      regeneration tool's answer to the second-last message and the reason is
      put after the history. */
  function Regenerate(history: seq<Message>, parse: Parser, tool: (string, Json) -> string)
    : (r: Result<seq<Message>, ToolPipeline.Raise>)
    ensures r.Failure? <==> |history| < 2
    ensures r.Failure? ==> r.error == ToolPipeline.IndexError
    ensures r.Success? ==>
      && ToolPipeline.AppendsOne(history, r.value)
      && r.value[|history|] == SystemMessage(tool(history[|history| - 2].content,
                                                  ReasonOf(history[|history| - 1].content, parse)))
  {
    if |history| < 2 then Failure(ToolPipeline.IndexError)
    else
      var reason := ReasonOf(history[|history| - 1].content, parse);
      Success(history + [SystemMessage(tool(history[|history| - 2].content, reason))])
  }

  /** Where the other graph's regenerate node raises on a reply that is not
      JSON, this one carries on with the default reason. */
  lemma RegenerateToleratesBadJson(history: seq<Message>, parse: Parser, tool: (string, Json) -> string)
    requires |history| >= 2 && parse(history[|history| - 1].content).Failure?
    requires Strip(history[|history| - 1].content) == history[|history| - 1].content
    ensures ToolPipeline.Regenerate(history, parse, tool).Failure?
    ensures Regenerate(history, parse, tool).Success?
    ensures Regenerate(history, parse, tool).value[|history|]
      == SystemMessage(tool(history[|history| - 2].content, JString(ToolPipeline.UnknownReason)))
  {
  }

  /** `call_model`: the response alone, not the history it answers. */
  function CallModel(history: seq<Message>, configured: Option<string>, response: Message)
    : (r: Result<seq<Message>, ToolPipeline.Raise>)
    ensures r.Failure? <==> ToolPipeline.CheckModel(configured).Some?
    ensures r.Success? ==> r.value == [response]
  {
    match ToolPipeline.CheckModel(configured)
    case Some(e) => Failure(e)
    case None => Success([response])
  }

  /** It is the part the other graph's `call_model` puts after the history. */
  lemma CallModelReturnsOnlyTheNew(history: seq<Message>, configured: Option<string>, response: Message)
    ensures CallModel(history, configured, response).Success?
      == ToolPipeline.CallModel(history, configured, response).Success?
    ensures CallModel(history, configured, response).Success? ==>
      CallModel(history, configured, response).value
        == ToolPipeline.CallModel(history, configured, response).value[|history|..]
  {
  }

  const NoData := "Neo4J 查詢結果：資料庫無資料 查詢query: "

  /** `query_neo4j`: it returns before opening a session, so the answer is
      the fixed notice followed by the query, whatever the database holds. */
  function QueryNeo4j(query: string): (r: string)
    ensures |r| == |NoData| + |query| && r[..|NoData|] == NoData
    ensures OccursAt(r, query, |NoData|)
  {
    NoData + query
  }

  /** The query can be read back from the notice, so distinct queries give
      distinct notices. */
  lemma QueryNeo4jInjective(a: string, b: string)
    requires QueryNeo4j(a) == QueryNeo4j(b)
    ensures a == b
  {
    assert a == QueryNeo4j(a)[|NoData|..];
    assert b == QueryNeo4j(b)[|NoData|..];
  }

  /** The graph; "agent" is its entry and the novelty tool node is also the
      router of "novelty_check". */
  function SamWiring(): Wiring {
    Wiring(
      ["agent", "neo4j_action", "web_action", "novelty_check", "regenerate"],
      "agent",
      [ Branch("agent", "choose_tool", map[Label("neo4j") := Node("neo4j_action"), Label("web") := Node("novelty_check")]),
        Branch("novelty_check", "novelty_tool_node", map[Label("pass") := Node("web_action"), Label("fail") := Node("regenerate")]),
        Edge("neo4j_action", Node("agent")),
        Edge("web_action", Node("agent")),
        Edge("regenerate", Node("agent")),
        Branch("agent", "should_continue", map[Label("continue") := Node("agent"), Label("end") := End])])
  }

  /** The routers by the names the wiring gives them. A tool node called as a
      router answers with a dict of messages, never a string. */
  function Route(router: string, history: seq<Message>): Outcome {
    if router == "choose_tool" then ChooseTool(history)
    else if router == "should_continue" then ToolPipeline.ShouldContinue(history)
    else NonString
  }

  /** So every walk that reaches "novelty_check" stops there unroutable,
      whatever the nodes do. */
  lemma NoveltyCheckUnroutable(effect: (string, seq<Message>) -> seq<Message>, history: seq<Message>, fuel: nat)
    requires fuel >= 1
    ensures Walk(SamWiring(), Route, effect, "novelty_check", history, fuel).stop
      == Unroutable("novelty_check", NonString)
  {
    var rules := SamWiring().rules;
    RulesFromOne(rules, "novelty_check", 1);
    assert NonString !in rules[1].outcomes;
  }

  /** "agent" is left by two routers here too: a walk from the entry runs
      "agent" and stops there ambiguous. */
  lemma AgentHasTwoRouters(route: (string, seq<Message>) -> Outcome,
                           effect: (string, seq<Message>) -> seq<Message>, history: seq<Message>, fuel: nat)
    requires fuel >= 1
    ensures RulesFrom(SamWiring().rules, "agent") == [SamWiring().rules[0], SamWiring().rules[5]]
    ensures Walk(SamWiring(), route, effect, "agent", history, fuel)
      == Run(Ambiguous("agent"), ["agent"], effect("agent", history))
  {
    var rules := SamWiring().rules;
    RulesFromOne(rules[1..], "agent", 4);
  }
}
