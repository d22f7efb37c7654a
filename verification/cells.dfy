/**
 * Spreadsheet cells as the tabular reader hands them over, and the two
 * coercions the converter applies to every cell: Python's `str(x)` and
 * pandas' lenient numeric conversion.
 */
module Cells {
  import opened Wrappers
  import opened Strings

  /** One cell: an empty cell reads as a missing value (pandas' NaN). */
  datatype Cell = Missing | Text(s: string) | Num(n: int) | Bool(b: bool)

  type Row = seq<Cell>

  /** A sheet: its header labels, then its rows in sheet order. */
  datatype Table = Table(columns: seq<string>, rows: seq<Row>)

  /** Python's `str(x)`: a missing value prints as the literal "nan". */
  function Str(c: Cell): string {
    match c
    case Missing => "nan"
    case Text(s) => s
    case Num(n) => IntToString(n)
    case Bool(b) => if b then "True" else "False"
  }

  /**
   * `pd.to_numeric(x, errors="coerce")`: a number, a boolean (as 1 or 0) or
   * text holding a decimal integer converts; anything else becomes missing.
   */
  function ParseNumber(c: Cell): Option<int> {
    match c
    case Missing => None
    case Text(s) => ParseInt(s)
    case Num(n) => Some(n)
    case Bool(b) => Some(if b then 1 else 0)
  }

  /** The cell in column `i`; a short row reads as missing beyond its end. */
  function CellAt(row: Row, i: nat): Cell {
    if i < |row| then row[i] else Missing
  }

  /** `columns.str.strip()`: every header label stripped. */
  function StripAll(names: seq<string>): (r: seq<string>)
    ensures |r| == |names|
    ensures forall i :: 0 <= i < |names| ==> r[i] == Strip(Python, names[i])
  {
    seq(|names|, i requires 0 <= i < |names| => Strip(Python, names[i]))
  }

  /** Stripping the labels a second time changes nothing. */
  lemma StripAllIdempotent(names: seq<string>)
    ensures StripAll(StripAll(names)) == StripAll(names)
  {
    forall i | 0 <= i < |names| ensures StripAll(StripAll(names))[i] == StripAll(names)[i] {
      StripIdempotent(Python, names[i]);
    }
  }

  /** A text cell holding the decimal form of `n` converts like the number `n`. */
  lemma ParseNumberText(n: int)
    ensures ParseNumber(Text(IntToString(n))) == ParseNumber(Num(n)) == Some(n)
  {
    ParseIntToString(n);
  }
}
