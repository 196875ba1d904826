/** The text inputs of the forms. Each input holds a string; the model keeps
    only what the components ever learn from it: whether it is empty, and
    what `parseInt`/`parseFloat` make of it. */
module FormInputs {
  import opened Wrappers

  /** An input's contents: `Blank` is the empty string (falsy in a
      condition); `Entered(None)` is text that does not parse (NaN);
      `Entered(Some(v))` is text that parses to v. */
  datatype Field<T> = Blank | Entered(parsed: Option<T>)

  /** `parseX(s)`, with NaN as None: an empty string parses to NaN. */
  function Parsed<T>(f: Field<T>): (r: Option<T>)
    ensures f.Blank? ==> r.None?
    ensures f.Entered? ==> r == f.parsed
  {
    match f
    case Blank => None
    case Entered(p) => p
  }

  /** `parseInt(s) || d`: the parsed number, or d when the input is empty,
      does not parse, or parses to 0. */
  function IntOr(f: Field<int>, d: int): (r: int)
    ensures r == d || Parsed(f) == Some(r)
    ensures r != d ==> r != 0
    ensures (Parsed(f).Some? && Parsed(f).value != 0) ==> r == Parsed(f).value
  {
    match Parsed(f)
    case Some(v) => if v != 0 then v else d
    case None => d
  }

  /** `parseFloat(s) || d`, the same rule for decimals. */
  function RealOr(f: Field<real>, d: real): (r: real)
    ensures r == d || Parsed(f) == Some(r)
    ensures r != d ==> r != 0.0
    ensures (Parsed(f).Some? && Parsed(f).value != 0.0) ==> r == Parsed(f).value
  {
    match Parsed(f)
    case Some(v) => if v != 0.0 then v else d
    case None => d
  }

  /** `isNaN(v) || v <= 0`: the submit handlers' test for a missing or
      non-positive number. */
  predicate NotPositiveInt(f: Field<int>) {
    Parsed(f).None? || Parsed(f).value <= 0
  }

  predicate NotPositiveReal(f: Field<real>) {
    Parsed(f).None? || Parsed(f).value <= 0.0
  }
}
