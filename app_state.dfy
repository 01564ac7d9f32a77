/** The shared state dict of the curiosity-driven pipeline (`AppState`) and
    the updates its nodes return. */
module AppStates {
  import opened Wrappers
  import opened Chat

  /** `AppState`. `externalData` is None when the key is absent;
      `needRegenerateSubq` and `noveltyTest` are None until a node sets them
      (the second is not a declared field at all). */
  datatype AppState = AppState(
    messages: seq<Message>,
    question: string,
    knowledgeChunks: seq<string>,
    subquestions: seq<string>,
    answerText: string,
    dbSqlLogs: seq<string>,
    needMoreKb: bool,
    needRegenerateSubq: Option<bool>,
    externalData: Option<seq<string>>,
    noveltyTest: Option<bool>)

  /** The dict a node returns: only "messages", or for the final-answer node
      also "answer_text" and "db_sql_logs". */
  datatype Update =
    | MessagesOnly(messages: seq<Message>)
    | AnswerUpdate(messages: seq<Message>, answerText: string, dbSqlLogs: seq<string>)

  /** The dict object the graph hands to a node; nodes write into it in place. */
  class SharedState {
    var value: AppState

    constructor (init: AppState)
      ensures value == init
    {
      value := init;
    }
  }
}
