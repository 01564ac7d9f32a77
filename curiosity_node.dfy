/** The curiosity node: it turns the model's reply into the list of
    sub-questions and flags whether to ask again; and its router. */
module CuriosityNode {
  import opened Wrappers
  import opened Text
  import opened Repr
  import opened Chat
  import opened AppStates
  import opened Values
  import opened Workflow

  /** A character absent from a string is absent from its stripped form. */
  lemma StripKeepsOut(s: string, c: char)
    ensures c !in s ==> c !in Strip(s)
  {
    var r := Strip(s);
    var i := StripSlice(s);
    if c !in s {
      forall k | 0 <= k < |r| ensures r[k] != c {
        assert r[k] == s[i + k];
      }
    }
  }

  /** `[f(x) for x in xs if f(x)]`: the non-empty images, in order. */
  function MapKeep(f: string -> string, xs: seq<string>): (ys: seq<string>)
    ensures |ys| <= |xs|
  {
    if xs == [] then []
    else
      var y := f(xs[0]);
      var rest := MapKeep(f, xs[1..]);
      if y != [] then [y] + rest else rest
  }

  lemma {:induction false} MapKeepConcat(f: string -> string, a: seq<string>, b: seq<string>)
    ensures MapKeep(f, a + b) == MapKeep(f, a) + MapKeep(f, b)
  {
    if a == [] {
      assert a + b == b;
    } else {
      var x := a[0];
      var kept := if f(x) != [] then [f(x)] else [];
      assert a + b == [x] + (a[1..] + b);
      assert a == [x] + a[1..];
      MapKeepCons(f, x, a[1..] + b);
      MapKeepCons(f, x, a[1..]);
      MapKeepConcat(f, a[1..], b);
      assert kept + (MapKeep(f, a[1..]) + MapKeep(f, b)) == (kept + MapKeep(f, a[1..])) + MapKeep(f, b);
    }
  }

  /** One step of `MapKeep`. */
  lemma MapKeepCons(f: string -> string, x: string, rest: seq<string>)
    ensures MapKeep(f, [x] + rest) == (if f(x) != [] then [f(x)] else []) + MapKeep(f, rest)
  {
    assert ([x] + rest)[0] == x && ([x] + rest)[1..] == rest;
  }

  /** Each kept line is the non-empty image of some input line. */
  lemma {:induction false} MapKeepSource(f: string -> string, xs: seq<string>, i: nat) returns (j: nat)
    requires i < |MapKeep(f, xs)|
    ensures j < |xs| && MapKeep(f, xs)[i] == f(xs[j]) && f(xs[j]) != []
    decreases |xs|
  {
    var kept := if f(xs[0]) != [] then [f(xs[0])] else [];
    assert [xs[0]] + xs[1..] == xs;
    MapKeepCons(f, xs[0], xs[1..]);
    if i < |kept| {
      j := 0;
    } else {
      var k := MapKeepSource(f, xs[1..], i - |kept|);
      j := k + 1;
    }
  }

  /** Stripping and dropping empty lines leaves non-empty stripped lines,
      free of any character the input lines were free of. */
  lemma StrippedLinesShape(lines: seq<string>, c: char)
    requires forall j :: 0 <= j < |lines| ==> c !in lines[j]
    ensures forall i :: 0 <= i < |MapKeep(Strip, lines)| ==>
      MapKeep(Strip, lines)[i] != [] && IsStripped(MapKeep(Strip, lines)[i]) && c !in MapKeep(Strip, lines)[i]
  {
    forall i | 0 <= i < |MapKeep(Strip, lines)|
      ensures MapKeep(Strip, lines)[i] != [] && IsStripped(MapKeep(Strip, lines)[i]) && c !in MapKeep(Strip, lines)[i]
    {
      var j := MapKeepSource(Strip, lines, i);
      StripKeepsOut(lines[j], c);
    }
  }

  /** `[q.strip() for q in reply.split("\n") if q.strip()]`: no stored
      sub-question is empty, has whitespace at either end or spans lines. */
  function Subquestions(reply: string): (qs: seq<string>)
    ensures forall i :: 0 <= i < |qs| ==> qs[i] != [] && IsStripped(qs[i]) && '\n' !in qs[i]
  {
    StrippedLinesShape(Split(reply, '\n'), '\n');
    MapKeep(Strip, Split(reply, '\n'))
  }

  /** The sub-questions of two blocks of lines are those of the first block
      followed by those of the second: order is kept and lines do not interact. */
  lemma SubquestionsConcat(a: string, b: string)
    ensures Subquestions(a + "\n" + b) == Subquestions(a) + Subquestions(b)
  {
    SplitConcat(a, '\n', b);
    MapKeepConcat(Strip, Split(a, '\n'), Split(b, '\n'));
  }

  /** A whitespace-only line contributes nothing; any other line contributes
      its stripped text. */
  lemma SubquestionsOfLine(line: string)
    requires '\n' !in line
    ensures Subquestions(line) == if Strip(line) == [] then [] else [Strip(line)]
  {
    SplitWithout(line, '\n');
    assert [line][1..] == [];
  }

  /** Lines that `f` maps to themselves, none empty, are all kept as they are. */
  lemma {:induction false} MapKeepFixed(f: string -> string, xs: seq<string>)
    requires forall i :: 0 <= i < |xs| ==> xs[i] != [] && f(xs[i]) == xs[i]
    ensures MapKeep(f, xs) == xs
  {
    if xs != [] {
      MapKeepFixed(f, xs[1..]);
      assert [xs[0]] + xs[1..] == xs;
      MapKeepCons(f, xs[0], xs[1..]);
    }
  }

  lemma KeepAllStripped(qs: seq<string>)
    requires forall i :: 0 <= i < |qs| ==> qs[i] != [] && IsStripped(qs[i])
    ensures MapKeep(Strip, qs) == qs
  {
    forall i | 0 <= i < |qs| ensures Strip(qs[i]) == qs[i] {
      StripStripped(qs[i]);
    }
    MapKeepFixed(Strip, qs);
  }

  /** Sub-questions written one per line come back exactly. */
  lemma SubquestionsRoundTrip(qs: seq<string>)
    requires forall i :: 0 <= i < |qs| ==> qs[i] != [] && IsStripped(qs[i]) && '\n' !in qs[i]
    ensures Subquestions(Join(qs, "\n")) == qs
  {
    if qs != [] {
      SplitJoin(qs, '\n');
      KeepAllStripped(qs);
    }
  }

  /** The message the node returns. */
  function CuriosityMessage(qs: seq<string>): Message {
    AiMessage("[CuriosityNode] 生成子問題: " + ListRepr(qs))
  }

  /** `curiosity_node` given the model's reply: it replaces the sub-question
      list, sets the regenerate flag exactly when fewer than two
      sub-questions survive, and returns one message. */
  method Curiosity(st: SharedState, reply: string) returns (update: Update)
    modifies st
    ensures st.value == old(st.value).(subquestions := Subquestions(reply),
                                       needRegenerateSubq := Some(|Subquestions(reply)| < 2))
    ensures update == MessagesOnly([CuriosityMessage(Subquestions(reply))])
  {
    var qs := Subquestions(reply);
    st.value := st.value.(subquestions := qs);
    if |qs| < 2 {
      st.value := st.value.(needRegenerateSubq := Some(true));
    } else {
      st.value := st.value.(needRegenerateSubq := Some(false));
    }
    update := MessagesOnly([CuriosityMessage(qs)]);
  }

  /** `route_curiosity`: an absent flag counts as false. */
  function RouteCuriosity(st: AppState): (o: Outcome)
    ensures o == Label("curiosity_node") <==> st.needRegenerateSubq == Some(true)
    ensures o != Label("curiosity_node") ==> o == Label("external_search_node")
  {
    if BoolOr(st.needRegenerateSubq, false) then Label("curiosity_node") else Label("external_search_node")
  }
}
