/** The web search node: one search request per sub-question, the answers
    gathered into an insertion-ordered dict, then written into the knowledge
    chunks and the external data of the state. The HTTP call is an oracle:
    the caller passes the reply obtained for each request, in order. */
module WebSearchNode {
  import opened Wrappers
  import opened Values
  import opened Text
  import opened Repr
  import opened Chat
  import opened AppStates

  /** What one request produced: a parsed reply whose first choice has the
      given content (None when "choices" is missing or empty), or an
      exception with its text. */
  datatype SearchReply = Answered(firstContent: Option<string>) | Failed(error: string)

  /** The value stored for a question. */
  function ReplyText(r: SearchReply): (t: string)
    ensures r.Answered? && r.firstContent.Some? ==> t == r.firstContent.value
    ensures r == Answered(None) ==> t == "無回應"
    ensures r.Failed? ==> t == "[Perplexity API Error] " + r.error
  {
    match r
    case Answered(c) => if c.Some? then c.value else "無回應"
    case Failed(e) => "[Perplexity API Error] " + e
  }

  /** A Python dict from str to str, as its items in insertion order. */
  type Dict = seq<(string, string)>

  function Keys(d: Dict): (ks: seq<string>)
    ensures |ks| == |d| && forall i :: 0 <= i < |d| ==> ks[i] == d[i].0
  {
    seq(|d|, i requires 0 <= i < |d| => d[i].0)
  }

  predicate Distinct(ks: seq<string>) {
    forall i, j :: 0 <= i < j < |ks| ==> ks[i] != ks[j]
  }

  /** `d[k]`, None when `k` is not a key. */
  function Lookup(d: Dict, k: string): (v: Option<string>)
    ensures v.None? <==> k !in Keys(d)
  {
    if d == [] then None
    else if d[0].0 == k then Some(d[0].1)
    else
      assert Keys(d) == [d[0].0] + Keys(d[1..]);
      Lookup(d[1..], k)
  }

  /** With distinct keys, `d[k]` is the value stored at `k`'s position. */
  lemma {:induction false} LookupDistinct(d: Dict, i: nat)
    requires Distinct(Keys(d)) && i < |d|
    ensures Lookup(d, d[i].0) == Some(d[i].1)
  {
    if i > 0 {
      assert Keys(d)[0] != Keys(d)[i];
      assert Keys(d[1..]) == Keys(d)[1..];
      LookupDistinct(d[1..], i - 1);
    }
  }

  /** The index of key `k`. */
  function IndexOf(ks: seq<string>, k: string): (i: nat)
    requires k in ks
    ensures i < |ks| && ks[i] == k && forall j :: 0 <= j < i ==> ks[j] != k
  {
    if ks[0] == k then 0 else 1 + IndexOf(ks[1..], k)
  }

  /** `d[k] = v`: an existing key keeps its place and takes the new value; a
      new key goes last. */
  function Assign(d: Dict, k: string, v: string): (r: Dict)
    ensures k in Keys(d) ==> Keys(r) == Keys(d)
    ensures k !in Keys(d) ==> Keys(r) == Keys(d) + [k]
  {
    if k in Keys(d) then
      var i := IndexOf(Keys(d), k);
      assert Keys(d[i := (k, v)]) == Keys(d);
      d[i := (k, v)]
    else
      assert Keys(d + [(k, v)]) == Keys(d) + [k];
      d + [(k, v)]
  }

  lemma AssignDistinct(d: Dict, k: string, v: string)
    requires Distinct(Keys(d))
    ensures Distinct(Keys(Assign(d, k, v)))
  {
    if k !in Keys(d) {
      var ks := Keys(d) + [k];
      assert forall i :: 0 <= i < |d| ==> ks[i] == Keys(d)[i];
    }
  }

  /** After `d[k] = v`, `k` maps to `v` and every other key to what it did. */
  lemma AssignLookup(d: Dict, k: string, v: string, k': string)
    requires Distinct(Keys(d))
    ensures Distinct(Keys(Assign(d, k, v)))
    ensures Lookup(Assign(d, k, v), k') == if k' == k then Some(v) else Lookup(d, k')
  {
    var r := Assign(d, k, v);
    AssignDistinct(d, k, v);
    var j := if k in Keys(d) then IndexOf(Keys(d), k) else |d|;
    assert r[j] == (k, v);
    if k' == k {
      LookupDistinct(r, j);
    } else if k' in Keys(d) {
      var i := IndexOf(Keys(d), k');
      assert r[i] == d[i];
      LookupDistinct(r, i);
      LookupDistinct(d, i);
    } else {
      assert Keys(r)[j] != k';
    }
  }

  /** The dict the loop builds: `search_results[q] = text` for each
      sub-question in turn. */
  function Aggregate(subs: seq<string>, replies: seq<SearchReply>): (d: Dict)
    requires |replies| == |subs|
    decreases |subs|
  {
    if subs == [] then []
    else
      var n := |subs| - 1;
      Assign(Aggregate(subs[..n], replies[..n]), subs[n], ReplyText(replies[n]))
  }

  /** No sub-question is stored twice. */
  lemma {:induction false} AggregateDistinct(subs: seq<string>, replies: seq<SearchReply>)
    requires |replies| == |subs|
    ensures Distinct(Keys(Aggregate(subs, replies)))
    decreases |subs|
  {
    if subs != [] {
      var n := |subs| - 1;
      AggregateDistinct(subs[..n], replies[..n]);
      AssignDistinct(Aggregate(subs[..n], replies[..n]), subs[n], ReplyText(replies[n]));
    }
  }

  /** The keys of the result are the sub-questions, each once. */
  lemma AggregateKeys(subs: seq<string>, replies: seq<SearchReply>)
    requires |replies| == |subs|
    ensures Distinct(Keys(Aggregate(subs, replies)))
    ensures forall k :: k in Keys(Aggregate(subs, replies)) <==> k in subs
  {
    AggregateDistinct(subs, replies);
    forall k ensures k in Keys(Aggregate(subs, replies)) <==> k in subs {
      AggregateHas(subs, replies, k);
    }
  }

  lemma {:induction false} AggregateHas(subs: seq<string>, replies: seq<SearchReply>, k: string)
    requires |replies| == |subs|
    ensures k in Keys(Aggregate(subs, replies)) <==> k in subs
    decreases |subs|
  {
    if subs != [] {
      var n := |subs| - 1;
      AggregateHas(subs[..n], replies[..n], k);
      assert subs == subs[..n] + [subs[n]];
    }
  }

  /** The keys are ordered by where each sub-question first occurs. */
  lemma {:induction false} AggregateOrder(subs: seq<string>, replies: seq<SearchReply>)
    requires |replies| == |subs|
    ensures forall k :: k in Keys(Aggregate(subs, replies)) ==> k in subs
    ensures forall i, j :: 0 <= i < j < |Aggregate(subs, replies)| ==>
      IndexOf(subs, Keys(Aggregate(subs, replies))[i]) < IndexOf(subs, Keys(Aggregate(subs, replies))[j])
    decreases |subs|
  {
    AggregateKeys(subs, replies);
    if subs != [] {
      var n := |subs| - 1;
      var prev := Aggregate(subs[..n], replies[..n]);
      AggregateKeys(subs[..n], replies[..n]);
      AggregateOrder(subs[..n], replies[..n]);
      forall k | k in subs[..n] ensures IndexOf(subs, k) == IndexOf(subs[..n], k) {
        IndexOfInPrefix(subs, k);
      }
      if subs[n] !in subs[..n] {
        IndexOfLast(subs);
      }
    }
  }

  lemma IndexOfInPrefix(subs: seq<string>, k: string)
    requires subs != [] && k in subs[..|subs| - 1]
    ensures IndexOf(subs, k) == IndexOf(subs[..|subs| - 1], k)
  {
    var n := |subs| - 1;
    assert subs == subs[..n] + [subs[n]];
    FirstIndexOfPrefix(subs[..n], subs[n], k);
  }

  lemma IndexOfLast(subs: seq<string>)
    requires subs != [] && subs[|subs| - 1] !in subs[..|subs| - 1]
    ensures IndexOf(subs, subs[|subs| - 1]) == |subs| - 1
  {
    var n := |subs| - 1;
    assert subs == subs[..n] + [subs[n]];
    FirstIndexOfNew(subs[..n], subs[n]);
  }

  lemma {:induction false} FirstIndexOfPrefix(xs: seq<string>, x: string, k: string)
    requires k in xs
    ensures IndexOf(xs + [x], k) == IndexOf(xs, k)
  {
    if xs[0] != k {
      assert (xs + [x])[1..] == xs[1..] + [x];
      FirstIndexOfPrefix(xs[1..], x, k);
    }
  }

  lemma {:induction false} FirstIndexOfNew(xs: seq<string>, x: string)
    requires x !in xs
    ensures IndexOf(xs + [x], x) == |xs|
  {
    if xs != [] {
      assert (xs + [x])[1..] == xs[1..] + [x];
      FirstIndexOfNew(xs[1..], x);
    }
  }

  /** A string that is not a sub-question is not a key. */
  lemma AggregateMissing(subs: seq<string>, replies: seq<SearchReply>, q: string)
    requires |replies| == |subs| && q !in subs
    ensures Lookup(Aggregate(subs, replies), q) == None
  {
    AggregateKeys(subs, replies);
  }

  /** A sub-question's stored text is the reply to its last occurrence. */
  lemma {:induction false} AggregateLast(subs: seq<string>, replies: seq<SearchReply>, i: nat)
    requires |replies| == |subs| && i < |subs|
    requires subs[i] !in subs[i + 1..]
    ensures Lookup(Aggregate(subs, replies), subs[i]) == Some(ReplyText(replies[i]))
    decreases |subs|
  {
    var n := |subs| - 1;
    var prev := Aggregate(subs[..n], replies[..n]);
    AggregateDistinct(subs[..n], replies[..n]);
    AssignLookup(prev, subs[n], ReplyText(replies[n]), subs[i]);
    if i < n {
      LastOccurrenceInPrefix(subs, i);
      AggregateLast(subs[..n], replies[..n], i);
    }
  }

  lemma LastOccurrenceInPrefix(subs: seq<string>, i: nat)
    requires i < |subs| - 1 && subs[i] !in subs[i + 1..]
    ensures subs[i] != subs[|subs| - 1]
    ensures subs[..|subs| - 1][i] == subs[i] && subs[i] !in subs[..|subs| - 1][i + 1..]
  {
    var n := |subs| - 1;
    assert subs[n] == subs[i + 1..][n - i - 1];
    assert subs[..n][i + 1..] == subs[i + 1..][..n - i - 1];
  }




  /** `f"{k}: {v}"` for each item. */
  function EntryLines(d: Dict): (lines: seq<string>)
    ensures |lines| == |d| && forall i :: 0 <= i < |d| ==> lines[i] == d[i].0 + ": " + d[i].1
  {
    seq(|d|, i requires 0 <= i < |d| => d[i].0 + ": " + d[i].1)
  }

  function ResultChunk(d: Dict): string {
    "[WebSearchResult]\n" + Join(EntryLines(d), "\n")
  }

  /** The state after a search with results `d`: one chunk appended and one
      external-data line per item, the list created when absent. */
  function SearchedState(st: AppState, d: Dict): (r: AppState)
    ensures |r.knowledgeChunks| == |st.knowledgeChunks| + 1
    ensures r.knowledgeChunks[..|st.knowledgeChunks|] == st.knowledgeChunks
    ensures "[WebSearchResult]\n" <= r.knowledgeChunks[|st.knowledgeChunks|]
    ensures r.externalData.Some? && |r.externalData.value| == |st.externalData.GetOr([])| + |d|
    ensures r.externalData.value[..|st.externalData.GetOr([])|] == st.externalData.GetOr([])
    ensures r.(knowledgeChunks := st.knowledgeChunks, externalData := st.externalData) == st
  {
    st.(knowledgeChunks := st.knowledgeChunks + [ResultChunk(d)],
        externalData := Some(st.externalData.GetOr([]) + EntryLines(d)))
  }

  /** The request loop: each sub-question's reply text stored under it, a
      repeated question overwriting its earlier entry in place. */
  method SearchAll(subs: seq<string>, replies: seq<SearchReply>) returns (results: Dict)
    requires |replies| == |subs|
    ensures results == Aggregate(subs, replies)
  {
    results := [];
    var i := 0;
    while i < |subs|
      invariant 0 <= i <= |subs|
      invariant results == Aggregate(subs[..i], replies[..i])
    {
      assert subs[..i + 1][..i] == subs[..i] && replies[..i + 1][..i] == replies[..i];
      results := Assign(results, subs[i], ReplyText(replies[i]));
      i := i + 1;
    }
    assert subs[..i] == subs && replies[..i] == replies;
  }

  /** The loop over the items appending `f"{k}: {v}"` to the external data. */
  method AppendEntries(st: SharedState, results: Dict)
    requires st.value.externalData.Some?
    modifies st
    ensures st.value == old(st.value).(externalData := Some(old(st.value.externalData.value) + EntryLines(results)))
  {
    ghost var lines := EntryLines(results);
    ghost var base := st.value.externalData.value;
    var k := 0;
    assert base + lines[..0] == base;
    while k < |results|
      invariant 0 <= k <= |results|
      invariant st.value == old(st.value).(externalData := Some(base + lines[..k]))
    {
      st.value := st.value.(externalData := Some(st.value.externalData.value + [results[k].0 + ": " + results[k].1]));
      assert base + lines[..k + 1] == base + lines[..k] + [lines[k]];
      k := k + 1;
    }
    assert lines[..k] == lines;
  }

  /** `web_search_node`. `apiKey` is the PERPLEXITY_API_KEY environment
      variable; `replies[i]` is what the request for the i-th sub-question
      produced. */
  method WebSearch(st: SharedState, apiKey: Option<string>, replies: seq<SearchReply>) returns (update: Update)
    requires |replies| == |st.value.subquestions|
    modifies st
    ensures old(st.value.subquestions) == [] ==>
      st.value == old(st.value) && update == MessagesOnly([AiMessage("[WebSearchNode] 沒有子問題可搜尋。")])
    ensures old(st.value.subquestions) != [] && StrOr(apiKey, "") == "" ==>
      st.value == old(st.value)
      && update == MessagesOnly([AiMessage("[WebSearchNode] 未找到 PERPLEXITY_API_KEY，無法查詢。")])
    ensures old(st.value.subquestions) != [] && StrOr(apiKey, "") != "" ==>
      var d := Aggregate(old(st.value.subquestions), replies);
      st.value == SearchedState(old(st.value), d)
      && update == MessagesOnly([AiMessage("[WebSearchNode] 已查詢外部 => " + DictRepr(d))])
  {
    var subs := st.value.subquestions;
    if subs == [] {
      return MessagesOnly([AiMessage("[WebSearchNode] 沒有子問題可搜尋。")]);
    }
    if StrOr(apiKey, "") == "" {
      return MessagesOnly([AiMessage("[WebSearchNode] 未找到 PERPLEXITY_API_KEY，無法查詢。")]);
    }
    var results := SearchAll(subs, replies);
    st.value := st.value.(knowledgeChunks := st.value.knowledgeChunks + [ResultChunk(results)]);
    if st.value.externalData.None? {
      st.value := st.value.(externalData := Some([]));
    }
    AppendEntries(st, results);
    update := MessagesOnly([AiMessage("[WebSearchNode] 已查詢外部 => " + DictRepr(results))]);
  }
}
