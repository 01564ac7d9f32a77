/** The novelty evaluator node, which records whether there are sub-questions
    to search for, and its router. */
module NoveltyEvaluatorNode {
  import opened Wrappers
  import opened Repr
  import opened Chat
  import opened AppStates
  import opened Workflow

  /** `route_novelty_evaluator`: `state["novelty_test"]` raises KeyError when
      the node has never run on this state. */
  function RouteNoveltyEvaluator(st: AppState): (o: Outcome)
    ensures st.noveltyTest == None ==> o == Raised("KeyError: 'novelty_test'")
    ensures st.noveltyTest == Some(true) ==> o == Label("external_search_node")
    ensures st.noveltyTest == Some(false) ==> o == Label("curiosity_node")
  {
    match st.noveltyTest
    case None => Raised("KeyError: 'novelty_test'")
    case Some(t) => if t then Label("external_search_node") else Label("curiosity_node")
  }

  /** What the node does to the state: `novelty_test` becomes whether there
      are sub-questions; nothing else changes. */
  function NoveltyEffect(st: AppState): (r: AppState)
    ensures r.noveltyTest.Some? && (r.noveltyTest.value <==> st.subquestions != [])
    ensures r.(noveltyTest := st.noveltyTest) == st
    ensures RouteNoveltyEvaluator(r) ==
      if st.subquestions != [] then Label("external_search_node") else Label("curiosity_node")
  {
    st.(noveltyTest := Some(st.subquestions != []))
  }

  /** The text of the message the node always returns. */
  function NotNovelMessage(subqs: seq<string>): Message {
    AiMessage("NoveltyEvaluatorNode 經篩選，子問題不夠新奇，重新生成 => " + ListRepr(subqs))
  }

  /** `novelty_evaluator_node`. The "novel enough" message built when there
      are sub-questions is overwritten before the return, so the returned
      message is the "not novel enough" one in every case. */
  method NoveltyEvaluator(st: SharedState) returns (update: Update)
    modifies st
    ensures st.value == NoveltyEffect(old(st.value))
    ensures update == MessagesOnly([NotNovelMessage(old(st.value).subquestions)])
  {
    st.value := st.value.(noveltyTest := Some(false));
    var subqs := st.value.subquestions;
    var msg;
    if subqs != [] {
      st.value := st.value.(noveltyTest := Some(true));
      msg := AiMessage("NoveltyEvaluatorNode 經篩選，子問題足夠新奇 => " + ListRepr(subqs));
    }
    msg := NotNovelMessage(subqs);
    update := MessagesOnly([msg]);
  }
}
