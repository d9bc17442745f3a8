/** The values a survey table holds, and the two conversions every part of
    the pipeline applies to them: `str(x)` (also `astype(str)`) and
    `pd.to_numeric(x, errors="coerce")`. */
module Cells {
  import opened Strings
  import opened Numbers

  /** One table cell as pandas holds it: a missing value (NaN or None), a
      text answer, an integer, a float, or a boolean. */
  datatype Cell = Missing | Text(s: string) | Int(i: int) | Real(r: real) | Flag(b: bool)

  /** `str(x)`: missing values are written "nan", floats always carry a
      point ("5.0"), booleans are "True" and "False". */
  function Str(c: Cell): (t: string)
    ensures c.Missing? ==> t == "nan"
    ensures c.Real? ==> '.' in t
  {
    match c
    case Missing => "nan"
    case Text(s) => s
    case Int(i) => ShowInt(i)
    case Real(x) => RealText(x)
    case Flag(b) => if b then "True" else "False"
  }

  /** `pd.isna(x)` */
  predicate IsMissing(c: Cell) {
    c.Missing?
  }

  /** `pd.to_numeric(x, errors="coerce")` on one cell: numbers are kept,
      booleans count as 1 and 0, text is parsed and becomes NaN when it is
      not a number. */
  function ToNumeric(c: Cell): Float {
    match c
    case Missing => NaN
    case Text(s) => ParseNumber(s)
    case Int(i) => Num(i as real)
    case Real(x) => Num(x)
    case Flag(b) => Num(if b then 1.0 else 0.0)
  }

  /** A float result stored back into a table: NaN is a missing cell. */
  function FromFloat(f: Float): (c: Cell)
    ensures IsMissing(c) <==> f.NaN?
    ensures f.Num? ==> c == Real(f.v)
  {
    match f
    case NaN => Missing
    case Num(v) => Real(v)
  }

  /** A float stored in a table reads back as the same float. */
  lemma NumericOfFloat(f: Float)
    ensures ToNumeric(FromFloat(f)) == f
  {
  }

  /** Writing an integer answer as text and reading it back loses nothing:
      a column that arrived as text "3" scores as the number 3. */
  lemma {:induction false} NumericOfIntText(i: int)
    ensures ToNumeric(Text(Str(Int(i)))) == ToNumeric(Int(i))
  {
    ParseShowInt(i);
  }

  /** The text of a whole-number float is the number followed by ".0". */
  lemma {:induction false} StrOfWholeReal(n: nat)
    ensures Str(Real(n as real)) == ShowNat(n) + ".0"
  {
    WholeRealText(n);
  }

  /** A missing value reads "nan", which stripping leaves as it is. */
  lemma MissingStripped(c: Cell)
    requires IsMissing(c)
    ensures Strip(Str(c)) == "nan"
  {
    NanStripped(Str(c));
  }

  lemma NanStripped(s: string)
    requires s == "nan"
    ensures Strip(s) == s
  {
    StripKeeps(s);
  }
}
