/** The values a normalised spreadsheet row holds under each header, and the
    three JavaScript coercions the grouper applies to them: truthiness (`!x`),
    `String(x ?? '')`, and `Number(x) || 0`. */
module Cells {
  import opened Basics

  /** A cell as the spreadsheet reader delivers it: absent (the row has no such
      key, JavaScript's `undefined`), text, an integer number, or a boolean. */
  datatype Cell = Missing | Text(s: string) | Num(n: int) | Bool(b: bool)

  /** JavaScript truthiness: `undefined`, `''`, `0` and `false` are falsy. */
  predicate Truthy(c: Cell) {
    match c
    case Missing => false
    case Text(s) => s != ""
    case Num(n) => n != 0
    case Bool(b) => b
  }

  /** `String(c ?? '')`. Only an absent cell and the empty text print as the
      empty string; in particular every truthy cell prints non-empty. */
  function Stringify(c: Cell): (r: string)
    ensures r == "" <==> c == Missing || c == Text("")
    ensures Truthy(c) ==> r != ""
    ensures c.Text? ==> r == c.s
    ensures c.Num? ==> r == IntToString(c.n)
    ensures c.Bool? ==> r == (if c.b then "true" else "false")
  {
    match c
    case Missing => ""
    case Text(s) => s
    case Num(n) => IntToString(n)
    case Bool(b) => if b then "true" else "false"
  }

  /** A decimal integer numeral after trimming, as `Number` reads it: the empty
      string is 0, an optional sign is followed by one or more digits, anything
      else is NaN (`None`). */
  function ParseNumeral(t: string): (r: Option<int>)
    ensures t == "" ==> r == Some(0)
    ensures r.Some? <==> AllDigits(t) || (|t| > 1 && (t[0] == '-' || t[0] == '+') && AllDigits(t[1..]))
    ensures AllDigits(t) ==> r == Some(DigitsValue(t))
    ensures |t| > 1 && t[0] == '-' && AllDigits(t[1..]) ==> r == Some(-(DigitsValue(t[1..]) as int))
    ensures |t| > 1 && t[0] == '+' && AllDigits(t[1..]) ==> r == Some(DigitsValue(t[1..]))
  {
    if t == "" then Some(0)
    else if t[0] == '-' || t[0] == '+' then
      var digits := t[1..];
      if digits != "" && AllDigits(digits) then
        var v: int := DigitsValue(digits);
        Some(if t[0] == '-' then -v else v)
      else None
    else if AllDigits(t) then Some(DigitsValue(t))
    else None
  }

  /** `Number(c)`, with NaN as `None`. */
  function ParseNum(c: Cell): (r: Option<int>)
    ensures c.Num? ==> r == Some(c.n)
    ensures c.Missing? ==> r == None
    ensures c.Text? ==> r == ParseNumeral(Trim(c.s))
    ensures c.Bool? ==> r == Some(if c.b then 1 else 0)
  {
    match c
    case Missing => None
    case Text(s) => ParseNumeral(Trim(s))
    case Num(n) => Some(n)
    case Bool(b) => Some(if b then 1 else 0)
  }

  /** `Number(c) || 0`: NaN becomes 0 (and 0 stays 0). */
  function NumberOrZero(c: Cell): (r: int)
    ensures ParseNum(c).None? ==> r == 0
    ensures ParseNum(c).Some? ==> r == ParseNum(c).value
  {
    match ParseNum(c)
    case Some(n) => n
    case None => 0
  }

  /** A number written out as text is read back as the same number: a numeric
      cell and the text it prints as give the same quantity. */
  lemma NumeralRoundTrip(n: int)
    ensures ParseNum(Text(IntToString(n))) == Some(n)
    ensures NumberOrZero(Text(Stringify(Num(n)))) == NumberOrZero(Num(n))
  {
    var s := IntToString(n);
    assert NoEdgeSpace(s);
    NumeralReadsBack(n);
  }

  /** The numeral of `n` parses as `n`. */
  lemma NumeralReadsBack(n: int)
    ensures ParseNumeral(IntToString(n)) == Some(n)
  {
    var s := IntToString(n);
    if n < 0 {
      var d := NatToString(-n);
      assert s == "-" + d && s[1..] == d;
      DigitsOfNat(-n);
    } else {
      DigitsOfNat(n);
    }
  }

}
