/** Python's `str()` of a list or a dict of strings, as the nodes put such
    values into message texts. Every string is shown between single quotes;
    Python's escaping of quotes and control characters is not modelled. */
module Repr {
  import opened Text

  function Quote(s: string): (r: string)
    ensures |r| == |s| + 2 && OccursAt(r, s, 1)
  {
    "'" + s + "'"
  }

  function QuotedItems(xs: seq<string>): (r: seq<string>)
    ensures |r| == |xs|
    ensures forall i :: 0 <= i < |xs| ==> r[i] == Quote(xs[i])
  {
    if xs == [] then [] else [Quote(xs[0])] + QuotedItems(xs[1..])
  }

  /** `str(xs)` for a list of strings: `['a', 'b']`. */
  function ListRepr(xs: seq<string>): (r: string)
    ensures |r| >= 2 && r[0] == '[' && r[|r| - 1] == ']'
  {
    "[" + Join(QuotedItems(xs), ", ") + "]"
  }

  /** `str(d)` for a dict of strings given as its items in order: `{'k': 'v'}`. */
  function DictRepr(items: seq<(string, string)>): (r: string)
    ensures |r| >= 2 && r[0] == '{' && r[|r| - 1] == '}'
  {
    "{" + Join(seq(|items|, i requires 0 <= i < |items| => Quote(items[i].0) + ": " + Quote(items[i].1)), ", ") + "}"
  }
}
