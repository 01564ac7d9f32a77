/** The final-answer node: it builds the prompt text from the knowledge
    chunks and returns the model's answer with two simulated SQL commands.
    It never writes to the state. */
module FinalAnswerNode {
  import opened Text
  import opened Chat
  import opened AppStates

  const NoKnowledge: string := "目前知識庫中無相關知識"

  /** `"\n".join(chunks) or "目前知識庫中無相關知識"`: the fallback is used
      exactly when there are no chunks or one empty chunk. */
  function KnowledgeText(chunks: seq<string>): (t: string)
    ensures chunks == [] || chunks == [""] ==> t == NoKnowledge
    ensures !(chunks == [] || chunks == [""]) ==> t == Join(chunks, "\n")
  {
    JoinEmpty(chunks, "\n");
    var joined := Join(chunks, "\n");
    if joined == "" then NoKnowledge else joined
  }

  /** The user turn of the prompt sent to the model: the question verbatim
      after its label, and the knowledge text (the fallback when there are no
      chunks) as the whole tail. */
  function Prompt(st: AppState): (p: string)
    ensures OccursAt(p, st.question, |"Question: "|)
    ensures |p| >= |KnowledgeText(st.knowledgeChunks)|
    ensures p[|p| - |KnowledgeText(st.knowledgeChunks)|..] == KnowledgeText(st.knowledgeChunks)
    ensures st.knowledgeChunks == [] ==> p[|p| - |NoKnowledge|..] == NoKnowledge
  {
    var head := "Question: " + st.question + "\nKnowledgeChunks:\n";
    var p := head + KnowledgeText(st.knowledgeChunks);
    assert p[|"Question: "|..|"Question: "| + |st.question|] == st.question;
    assert p[|head|..] == KnowledgeText(st.knowledgeChunks);
    p
  }

  const AnswerRecordHead: string := "INSERT INTO AnswerRecordTable(" + "question, answer) VALUES("
  const LogHead: string := "INSERT INTO Log(prompt, output) VALUES("

  /** The AnswerRecordTable insert; question and answer appear verbatim. */
  function AnswerRecordSql(question: string, answer: string): (r: string)
    ensures OccursAt(r, question, |AnswerRecordHead| + 1)
    ensures OccursAt(r, answer, |AnswerRecordHead| + |question| + 5)
  {
    var r := AnswerRecordHead + "'" + question + "', '" + answer + "')";
    assert r[|AnswerRecordHead| + 1..|AnswerRecordHead| + 1 + |question|] == question;
    assert r[|AnswerRecordHead| + |question| + 5..|AnswerRecordHead| + |question| + 5 + |answer|] == answer;
    r
  }

  /** The Log insert; question and answer appear verbatim after "Q: " and "A: ". */
  function LogSql(question: string, answer: string): (r: string)
    ensures OccursAt(r, question, |LogHead| + 4)
    ensures OccursAt(r, answer, |LogHead| + |question| + 11)
  {
    var r := LogHead + "'Q: " + question + "', 'A: " + answer + "')";
    assert r[|LogHead| + 4..|LogHead| + 4 + |question|] == question;
    assert r[|LogHead| + |question| + 11..|LogHead| + |question| + 11 + |answer|] == answer;
    r
  }

  /** With no single quote in the question or the answer, the quotes of the
      AnswerRecordTable insert delimit exactly the two values; a quote in
      either shifts the fields, as nothing is escaped. */
  lemma AnswerRecordFields(question: string, answer: string)
    requires '\'' !in question && '\'' !in answer
    ensures Split(AnswerRecordSql(question, answer), '\'') == [AnswerRecordHead, question, ", ", answer, ")"]
  {
    var q := '\'';
    HeadHasNoQuote();
    assert q !in ", ";
    assert q !in ")";
    AnswerRecordPieces(question, answer);
    SplitFive(AnswerRecordHead, question, ", ", answer, ")", q);
  }

  lemma HeadHasNoQuote()
    ensures '\'' !in AnswerRecordHead
  {
    assert '\'' !in "INSERT INTO AnswerRecordTable(";
    assert '\'' !in "question, answer) VALUES(";
  }

  lemma AnswerRecordPieces(question: string, answer: string)
    ensures AnswerRecordSql(question, answer)
         == AnswerRecordHead + ['\''] + (question + ['\''] + (", " + ['\''] + (answer + ['\''] + ")")))
  {
  }

  /** Five quote-free pieces joined by quotes split back into those pieces. */
  lemma SplitFive(a: string, b: string, c: string, d: string, e: string, q: char)
    requires q !in a && q !in b && q !in c && q !in d && q !in e
    ensures Split(a + [q] + (b + [q] + (c + [q] + (d + [q] + e))), q) == [a, b, c, d, e]
  {
    SplitWithout(e, q);
    SplitAfterPiece(d, q, e);
    SplitAfterPiece(c, q, d + [q] + e);
    SplitAfterPiece(b, q, c + [q] + (d + [q] + e));
    SplitAfterPiece(a, q, b + [q] + (c + [q] + (d + [q] + e)));
  }

  /** `final_answer_node` with `model` standing for the chat model's reply to
      a prompt: the answer is the reply to Prompt(st), the one message is
      that reply with a prefix, and the two SQL commands come in order. */
  function FinalAnswer(st: AppState, model: string -> string): (u: Update)
    ensures u.AnswerUpdate? && u.answerText == model(Prompt(st))
    ensures u.messages == [AiMessage("[FinalAnswerNode] " + u.answerText)]
    ensures u.dbSqlLogs == [AnswerRecordSql(st.question, u.answerText), LogSql(st.question, u.answerText)]
  {
    var reply := model(Prompt(st));
    AnswerUpdate([AiMessage("[FinalAnswerNode] " + reply)], reply,
                 [AnswerRecordSql(st.question, reply), LogSql(st.question, reply)])
  }

  /** The node sees the state only through its prompt: two states with the
      same question and the same knowledge text get the same update. */
  lemma FinalAnswerThroughPrompt(st1: AppState, st2: AppState, model: string -> string)
    requires st1.question == st2.question
    requires KnowledgeText(st1.knowledgeChunks) == KnowledgeText(st2.knowledgeChunks)
    ensures FinalAnswer(st1, model) == FinalAnswer(st2, model)
  {
    assert Prompt(st1) == Prompt(st2);
  }
}
