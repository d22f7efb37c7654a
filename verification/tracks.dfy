/**
 * Sheet B, one row per song (excel_to_json.py:138-165, 176-190): each row
 * is normalised into the helper columns `__taste`, `__mood`, `__title`,
 * `__uri`, `__rank`, `__weight`, `__inst` and `__artist`; rows with an
 * empty required field are dropped; each survivor becomes one track.
 */
module Tracks {
  import opened Wrappers
  import opened Strings
  import opened Cells
  import opened Normalize
  import opened Columns

  /**
   * One normalised sheet-B row. `pos` is the row's position in the sheet
   * (the DataFrame index), which the stable sort preserves among ties.
   */
  datatype Song = Song(
    taste: string, mood: string, title: string, uri: string,
    rank: Option<int>, weight: real, inst: Option<bool>, artist: Option<string>,
    pos: nat)

  /** One entry of a `music` list in the output document. */
  datatype Track = Track(
    title: string, uri: string, artist: Option<string>,
    rank: Option<int>, weight: real, instrumental: Option<bool>)

  /** The cell of an optional column; a row of a sheet without that column has none. */
  function OptionalCell(columns: seq<string>, row: Row, name: Option<string>): Option<Cell> {
    match name
    case Some(n) => Some(CellByLabel(columns, row, n, Missing))
    case None => None
  }

  /** `pd.to_numeric(..., errors="coerce").fillna(1.0)`, or 1.0 without a weight column. */
  function WeightOf(c: Option<Cell>): (w: real)
    ensures c.None? || ParseNumber(c.value).None? ==> w == 1.0
    ensures c.Some? && ParseNumber(c.value).Some? ==> w == ParseNumber(c.value).value as real
  {
    if c.Some? then
      match ParseNumber(c.value)
      case Some(n) => n as real
      case None => 1.0
    else 1.0
  }

  /** The helper columns of excel_to_json.py:138-165 for the sheet row at position `pos`. */
  function NormalizeRow(layout: Layout, columns: seq<string>, row: Row, pos: nat): (s: Song)
    ensures s.pos == pos
    ensures s.taste == NormTaste(CellByLabel(columns, row, layout.taste, Missing))
    ensures s.mood == NormMood(CellByLabel(columns, row, layout.mood, Missing))
    ensures s.title == Token(CellByLabel(columns, row, layout.title, Missing))
    ensures s.uri == Token(CellByLabel(columns, row, layout.uri, Missing))
    ensures s.rank.Some? <==> layout.rank.Some? && ParseNumber(OptionalCell(columns, row, layout.rank).value).Some?
    ensures s.rank.Some? ==> s.rank == ParseNumber(OptionalCell(columns, row, layout.rank).value)
    ensures s.weight == WeightOf(OptionalCell(columns, row, layout.weight))
    ensures s.inst.Some? <==> layout.inst.Some? && ToBoolOrNone(OptionalCell(columns, row, layout.inst).value).Some?
    ensures s.inst.Some? ==> s.inst == ToBoolOrNone(OptionalCell(columns, row, layout.inst).value)
    ensures s.artist.Some? <==> layout.artist.Some?
    ensures s.artist.Some? ==> s.artist.value == Token(OptionalCell(columns, row, layout.artist).value)
  {
    var cell := (n: string) => CellByLabel(columns, row, n, Missing);
    var rank := OptionalCell(columns, row, layout.rank);
    var inst := OptionalCell(columns, row, layout.inst);
    var artist := OptionalCell(columns, row, layout.artist);
    Song(
      NormTaste(cell(layout.taste)),
      NormMood(cell(layout.mood)),
      Token(cell(layout.title)),
      Token(cell(layout.uri)),
      if rank.Some? then ParseNumber(rank.value) else None,
      WeightOf(OptionalCell(columns, row, layout.weight)),
      if inst.Some? then ToBoolOrNone(inst.value) else None,
      if artist.Some? then Some(Token(artist.value)) else None,
      pos)
  }

  /** The filter of excel_to_json.py:143-144: all four required fields are non-empty. */
  predicate Keep(s: Song) {
    s.taste != "" && s.mood != "" && s.title != "" && s.uri != ""
  }

  /** Every row of the sheet, normalised, at its own position. */
  function NormalizeAll(layout: Layout, columns: seq<string>, rows: seq<Row>): (r: seq<Song>)
    ensures |r| == |rows|
    ensures forall i | 0 <= i < |rows| :: r[i] == NormalizeRow(layout, columns, rows[i], i)
  {
    seq(|rows|, i requires 0 <= i < |rows| => NormalizeRow(layout, columns, rows[i], i))
  }

  /** Boolean-mask selection `b[mask]`: the rows that pass, in their order. */
  function Survivors(ss: seq<Song>): (r: seq<Song>)
    ensures |r| <= |ss|
    ensures forall x | x in r :: x in ss && Keep(x)
    ensures forall x | x in ss && Keep(x) :: x in r
  {
    if ss == [] then []
    else (if Keep(ss[0]) then [ss[0]] else []) + Survivors(ss[1..])
  }

  /** Strictly increasing sheet positions: the rows are in sheet order, each once. */
  predicate InSheetOrder(ss: seq<Song>) {
    forall i, j | 0 <= i < j < |ss| :: ss[i].pos < ss[j].pos
  }

  lemma {:induction false} SurvivorsInOrder(ss: seq<Song>)
    requires InSheetOrder(ss)
    ensures InSheetOrder(Survivors(ss))
    ensures forall x | x in Survivors(ss) :: ss != [] && ss[0].pos <= x.pos
  {
    if ss != [] {
      SurvivorsInOrder(ss[1..]);
      var rest := Survivors(ss[1..]);
      forall x | x in rest ensures ss[0].pos < x.pos {
        assert x in ss[1..];
      }
    }
  }

  /** The surviving rows of sheet B, in sheet order (excel_to_json.py:138-144). */
  function Extract(layout: Layout, columns: seq<string>, rows: seq<Row>): seq<Song> {
    Survivors(NormalizeAll(layout, columns, rows))
  }

  /**
   * A row reaches the index exactly when its four required fields are
   * non-empty, and it does so whole: every surviving song is the
   * normalisation of one sheet row, and they stay in sheet order.
   */
  lemma ExtractSpec(layout: Layout, columns: seq<string>, rows: seq<Row>)
    ensures forall s | s in Extract(layout, columns, rows) ::
      Keep(s) && s.pos < |rows| && s == NormalizeRow(layout, columns, rows[s.pos], s.pos)
    ensures forall i | 0 <= i < |rows| && Keep(NormalizeRow(layout, columns, rows[i], i)) ::
      NormalizeRow(layout, columns, rows[i], i) in Extract(layout, columns, rows)
    ensures InSheetOrder(Extract(layout, columns, rows))
  {
    var all := NormalizeAll(layout, columns, rows);
    forall s | s in Extract(layout, columns, rows)
      ensures s.pos < |rows| && s == NormalizeRow(layout, columns, rows[s.pos], s.pos)
    {
      var i :| 0 <= i < |all| && all[i] == s;
    }
    forall i | 0 <= i < |rows| && Keep(NormalizeRow(layout, columns, rows[i], i))
      ensures NormalizeRow(layout, columns, rows[i], i) in Extract(layout, columns, rows)
    {
      assert all[i] in all;
    }
    SurvivorsInOrder(all);
  }

  /**
   * The track dictionary of excel_to_json.py:176-190: title and uri always,
   * the weight always, the rank and the instrumental flag when present,
   * and the artist unless it is empty or reads "nan" in any case.
   */
  function MakeTrack(s: Song): (t: Track)
    ensures t.title == s.title && t.uri == s.uri && t.weight == s.weight
    ensures t.rank == s.rank && t.instrumental == s.inst
    ensures t.artist.Some? <==> s.artist.Some? && s.artist.value != "" && Lower(s.artist.value) != "nan"
    ensures t.artist.Some? ==> t.artist == s.artist
  {
    var artist := if s.artist.Some? && s.artist.value != "" && Lower(s.artist.value) != "nan" then s.artist else None;
    Track(s.title, s.uri, artist, s.rank, s.weight, s.inst)
  }

  /** The tracks of a list of songs, in the same order. */
  function TracksOf(ss: seq<Song>): (r: seq<Track>)
    ensures |r| == |ss|
    ensures forall i | 0 <= i < |ss| :: r[i] == MakeTrack(ss[i])
  {
    seq(|ss|, i requires 0 <= i < |ss| => MakeTrack(ss[i]))
  }

  lemma TracksOfAppend(a: seq<Song>, b: seq<Song>)
    ensures TracksOf(a + b) == TracksOf(a) + TracksOf(b)
  {
  }

  /** `str(x).strip()` of an empty cell is the text "nan", which is not blank. */
  lemma MissingToken()
    ensures Token(Missing) == "nan"
  {
    StripFixed(Python, "nan");
  }

  /**
   * The filter cannot see an empty title or uri cell: it reads "nan", so
   * the row survives with "nan" as its title (or uri).
   */
  lemma BlankTitleSurvives(layout: Layout, columns: seq<string>, row: Row, pos: nat)
    requires CellByLabel(columns, row, layout.title, Missing) == Missing
    requires NormalizeRow(layout, columns, row, pos).taste != ""
    requires NormalizeRow(layout, columns, row, pos).mood != ""
    requires NormalizeRow(layout, columns, row, pos).uri != ""
    ensures Keep(NormalizeRow(layout, columns, row, pos))
    ensures NormalizeRow(layout, columns, row, pos).title == "nan"
  {
    MissingToken();
  }

  /** An empty artist cell also reads "nan", which the track builder recognises and omits. */
  lemma BlankArtistOmitted(layout: Layout, columns: seq<string>, row: Row, pos: nat)
    requires layout.artist.Some? && OptionalCell(columns, row, layout.artist) == Some(Missing)
    ensures MakeTrack(NormalizeRow(layout, columns, row, pos)).artist.None?
  {
    MissingToken();
    assert Lower("nan") == "nan";
  }
}
