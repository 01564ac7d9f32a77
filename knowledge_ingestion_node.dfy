/** The knowledge ingestion node, which appends the model's digest of the
    external data to the knowledge chunks, and its router. */
module KnowledgeIngestionNode {
  import opened Wrappers
  import opened Chat
  import opened AppStates
  import opened Workflow

  /** `state.get("external_data", [])` is truthy. */
  predicate HasExternalData(st: AppState) {
    st.externalData.Some? && st.externalData.value != []
  }

  function IngestedChunk(reply: string): string {
    "[Ingested Info]\n" + reply
  }

  /** What the node does to the state given the model's reply: one chunk
      appended when there is external data, nothing otherwise. */
  function IngestionEffect(st: AppState, reply: string): (r: AppState)
    ensures !HasExternalData(st) ==> r == st
    ensures HasExternalData(st) ==>
      |r.knowledgeChunks| == |st.knowledgeChunks| + 1
      && r.knowledgeChunks[..|st.knowledgeChunks|] == st.knowledgeChunks
      && r.knowledgeChunks[|st.knowledgeChunks|] == IngestedChunk(reply)
      && r.(knowledgeChunks := st.knowledgeChunks) == st
    ensures r.externalData == st.externalData
  {
    if HasExternalData(st) then st.(knowledgeChunks := st.knowledgeChunks + [IngestedChunk(reply)]) else st
  }

  /** The one message the node returns. */
  function IngestionMessage(st: AppState, reply: string): Message {
    if HasExternalData(st) then AiMessage("[KnowledgeIngestionNode] 已將外部資料整合並更新知識庫:\n" + reply)
    else AiMessage("[KnowledgeIngestionNode] 無外部資料可存入。")
  }

  /** `knowledge_ingestion_node`; `reply` is the model's answer, only asked
      for when there is external data. */
  method KnowledgeIngestion(st: SharedState, reply: string) returns (update: Update)
    modifies st
    ensures st.value == IngestionEffect(old(st.value), reply)
    ensures update == MessagesOnly([IngestionMessage(old(st.value), reply)])
  {
    var externalData := st.value.externalData.GetOr([]);
    if externalData == [] {
      return MessagesOnly([AiMessage("[KnowledgeIngestionNode] 無外部資料可存入。")]);
    }
    st.value := st.value.(knowledgeChunks := st.value.knowledgeChunks + [IngestedChunk(reply)]);
    update := MessagesOnly([AiMessage("[KnowledgeIngestionNode] 已將外部資料整合並更新知識庫:\n" + reply)]);
  }

  /** `route_knowledge_ingestion`: the string "END" for every state, which is
      not langgraph's END sentinel. */
  function RouteKnowledgeIngestion(st: AppState): (o: Outcome)
    ensures o == Label("END") && o != EndSentinel
  {
    Label("END")
  }
}
