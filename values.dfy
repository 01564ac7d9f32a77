/** Python values the core passes around without looking inside (`Any`),
    and Python's `x or default` on the optional settings it reads. */
module Values {
  import opened Wrappers

  datatype Datum =
    | DStr(s: string)
    | DInt(i: int)
    | DReal(r: real)
    | DBool(b: bool)
    | DList(items: seq<Datum>)
    | DDict(entries: map<string, Datum>)
    | DNone

  /** `o or d` for an optional string: None and "" are falsy. */
  function StrOr(o: Option<string>, d: string): (r: string)
    ensures r == d <== (o == None || o == Some(""))
    ensures o.Some? && o.value != "" ==> r == o.value
  {
    if o.Some? && o.value != "" then o.value else d
  }

  /** `o or d` for an optional int: None and 0 are falsy. */
  function IntOr(o: Option<int>, d: int): (r: int)
    ensures r == d <== (o == None || o == Some(0))
    ensures o.Some? && o.value != 0 ==> r == o.value
  {
    if o.Some? && o.value != 0 then o.value else d
  }

  /** `o or d` for an optional bool: None and False are falsy, so the result
      is True exactly when either is True. */
  function BoolOr(o: Option<bool>, d: bool): (r: bool)
    ensures r <==> (o == Some(true) || d)
  {
    if o.Some? && o.value then true else d
  }

  /** `o or d` for an optional float: None and 0.0 are falsy. */
  function RealOr(o: Option<real>, d: Option<real>): (r: Option<real>)
    ensures r == d <== (o == None || o == Some(0.0))
    ensures o.Some? && o.value != 0.0 ==> r == o
  {
    if o.Some? && o.value != 0.0 then o else d
  }
}
