/**
 * Column resolution in excel_to_json.py: the alias lists of sheet B and
 * `find_col`, which picks the first alias, in alias order, that names a
 * column; and the case-insensitive name lookup of sheet A (`a_cols`).
 */
module Columns {
  import opened Wrappers
  import opened Strings
  import opened Cells

  /** `ALIASES_B`: the accepted header labels of each sheet-B field, in priority order. */
  const TasteAliases: seq<string> := ["taste", "味覚", "default_taste"]
  const MoodAliases: seq<string> := ["mood", "気分"]
  const ArtistAliases: seq<string> := ["artist", "アーティスト", "歌手", "作曲者"]
  const TitleAliases: seq<string> := ["song_title", "song", "曲名", "title", "楽曲名"]
  const UriAliases: seq<string> := ["uri", "link", "url", "リンク", "動画", "音源", "path", "file"]
  const RankAliases: seq<string> := ["rank", "順位", "優先度"]
  const WeightAliases: seq<string> := ["weight", "重み", "抽選重み"]
  const InstAliases: seq<string> := ["instrumental", "インスト", "歌詞なし", "instrument", "inst"]

  /** No alias in `keys[..n]` names a column. */
  predicate NoneBefore(columns: seq<string>, keys: seq<string>, n: nat)
    requires n <= |keys|
  {
    forall j | 0 <= j < n :: keys[j] !in columns
  }

  /** `name` is the highest-priority candidate that names a column. */
  predicate Picks(columns: seq<string>, keys: seq<string>, name: string) {
    exists i | 0 <= i < |keys| :: keys[i] == name && name in columns && NoneBefore(columns, keys, i)
  }

  /** At most one candidate is the highest-priority present one. */
  lemma PicksUnique(columns: seq<string>, keys: seq<string>, a: string, b: string)
    requires Picks(columns, keys, a) && Picks(columns, keys, b)
    ensures a == b
  {
    var i :| 0 <= i < |keys| && keys[i] == a && a in columns && NoneBefore(columns, keys, i);
    var j :| 0 <= j < |keys| && keys[j] == b && b in columns && NoneBefore(columns, keys, j);
    FirstIndexUnique(columns, keys, i, j);
  }

  lemma FirstIndexUnique(columns: seq<string>, keys: seq<string>, i: nat, j: nat)
    requires i < |keys| && keys[i] in columns && NoneBefore(columns, keys, i)
    requires j < |keys| && keys[j] in columns && NoneBefore(columns, keys, j)
    ensures i == j
  {
  }

  /** The loop of `find_col`: the first candidate, in candidate order, that is a column name. */
  function FirstPresent(columns: seq<string>, keys: seq<string>): (r: Option<nat>)
    ensures r.Some? ==> r.value < |keys| && keys[r.value] in columns && NoneBefore(columns, keys, r.value)
    ensures r.None? ==> NoneBefore(columns, keys, |keys|)
  {
    if keys == [] then None
    else if keys[0] in columns then Some(0)
    else
      match FirstPresent(columns, keys[1..])
      case None => None
      case Some(i) => Some(i + 1)
  }

  /**
   * `find_col(df, keys, required)`: the first candidate present among the
   * labels; when none is, a failure carrying the candidate list if the
   * column is required, and no column otherwise.
   */
  function FindCol(columns: seq<string>, keys: seq<string>, required: bool): (r: Result<Option<string>, seq<string>>)
    ensures r.Failure? <==> required && NoneBefore(columns, keys, |keys|)
    ensures r.Failure? ==> r.error == keys
    ensures r == Success(None) <==> !required && NoneBefore(columns, keys, |keys|)
    ensures r.Success? && r.value.Some? ==> Picks(columns, keys, r.value.value)
  {
    match FirstPresent(columns, keys)
    case Some(i) => Success(Some(keys[i]))
    case None => if required then Failure(keys) else Success(None)
  }

  /** Candidate order wins over column order: a higher-priority alias is picked wherever its column stands. */
  lemma FindColPriority(columns: seq<string>, keys: seq<string>, required: bool, i: nat)
    requires i < |keys| && keys[i] in columns && NoneBefore(columns, keys, i)
    ensures FindCol(columns, keys, required) == Success(Some(keys[i]))
  {
  }

  /** The labels the converter resolved for sheet B. */
  datatype Layout = Layout(
    taste: string, mood: string, title: string, uri: string,
    artist: Option<string>, rank: Option<string>, weight: Option<string>, inst: Option<string>)

  /**
   * The candidate list of the first required field, in the order taste,
   * mood, title, uri, none of whose candidates is a column.
   */
  function FirstMissing(columns: seq<string>): seq<string> {
    if NoneBefore(columns, TasteAliases, |TasteAliases|) then TasteAliases
    else if NoneBefore(columns, MoodAliases, |MoodAliases|) then MoodAliases
    else if NoneBefore(columns, TitleAliases, |TitleAliases|) then TitleAliases
    else UriAliases
  }

  /**
   * The eight `find_col` calls: the four required fields in the order taste,
   * mood, title, uri (the first missing one stops the conversion with its
   * candidate list), then the four optional ones.
   */
  function ResolveB(columns: seq<string>): (r: Result<Layout, seq<string>>)
    ensures r.Success? <==>
      !NoneBefore(columns, TasteAliases, |TasteAliases|) && !NoneBefore(columns, MoodAliases, |MoodAliases|)
      && !NoneBefore(columns, TitleAliases, |TitleAliases|) && !NoneBefore(columns, UriAliases, |UriAliases|)
    ensures r.Failure? ==> r.error == FirstMissing(columns)
    ensures r.Success? ==>
      Picks(columns, TasteAliases, r.value.taste) && Picks(columns, MoodAliases, r.value.mood)
      && Picks(columns, TitleAliases, r.value.title) && Picks(columns, UriAliases, r.value.uri)
    ensures r.Success? ==>
      (r.value.artist.Some? <==> !NoneBefore(columns, ArtistAliases, |ArtistAliases|))
      && (r.value.rank.Some? <==> !NoneBefore(columns, RankAliases, |RankAliases|))
      && (r.value.weight.Some? <==> !NoneBefore(columns, WeightAliases, |WeightAliases|))
      && (r.value.inst.Some? <==> !NoneBefore(columns, InstAliases, |InstAliases|))
    ensures r.Success? ==>
      (r.value.artist.Some? ==> Picks(columns, ArtistAliases, r.value.artist.value))
      && (r.value.rank.Some? ==> Picks(columns, RankAliases, r.value.rank.value))
      && (r.value.weight.Some? ==> Picks(columns, WeightAliases, r.value.weight.value))
      && (r.value.inst.Some? ==> Picks(columns, InstAliases, r.value.inst.value))
  {
    var taste :- FindCol(columns, TasteAliases, true);
    var mood :- FindCol(columns, MoodAliases, true);
    var title :- FindCol(columns, TitleAliases, true);
    var uri :- FindCol(columns, UriAliases, true);
    var artist := FindCol(columns, ArtistAliases, false).value;
    var rank := FindCol(columns, RankAliases, false).value;
    var weight := FindCol(columns, WeightAliases, false).value;
    var inst := FindCol(columns, InstAliases, false).value;
    Success(Layout(taste.value, mood.value, title.value, uri.value, artist, rank, weight, inst))
  }

  /** The first position of a name; pandas reads a column by its name. */
  function ColumnIndex(columns: seq<string>, name: string): (r: Option<nat>)
    ensures r.Some? ==> r.value < |columns| && columns[r.value] == name && name !in columns[..r.value]
    ensures r.None? <==> name !in columns
  {
    if columns == [] then None
    else if columns[0] == name then Some(0)
    else
      match ColumnIndex(columns[1..], name)
      case None => None
      case Some(i) =>
        assert columns[..i + 1] == [columns[0]] + columns[1..][..i];
        Some(i + 1)
  }

  /**
   * `r.get(name, absent)`: the row's cell in the first column with that
   * name, or `absent` when no column has it.
   */
  function CellByLabel(columns: seq<string>, row: Row, name: string, absent: Cell): (c: Cell)
    ensures name !in columns ==> c == absent
    ensures name in columns ==>
      exists i | 0 <= i < |columns| && columns[i] == name && name !in columns[..i] :: c == CellAt(row, i)
  {
    match ColumnIndex(columns, name)
    case Some(i) => CellAt(row, i)
    case None => absent
  }

  /**
   * `a_cols.get(key)` for `a_cols = {c.lower(): c for c in columns}`: the
   * last name whose lower-cased form is `key`, since later labels
   * overwrite earlier ones in the dictionary.
   */
  function LowerLabel(columns: seq<string>, key: string): (r: Option<string>)
    ensures r.Some? <==> exists i | 0 <= i < |columns| :: Lower(columns[i]) == key
    ensures r.Some? ==> exists i | 0 <= i < |columns| ::
      (columns[i] == r.value && Lower(r.value) == key && forall j | i < j < |columns| :: Lower(columns[j]) != key)
  {
    if columns == [] then None
    else if Lower(columns[|columns| - 1]) == key then Some(columns[|columns| - 1])
    else
      var r := LowerLabel(columns[..|columns| - 1], key);
      assert forall i | 0 <= i < |columns| - 1 :: columns[..|columns| - 1][i] == columns[i];
      r
  }

  /** A header matches whatever its capitalisation: "Food_Name" is found under "food_name". */
  lemma LowerLabelFinds(columns: seq<string>, i: nat)
    requires i < |columns| && forall j | i < j < |columns| :: Lower(columns[j]) != Lower(columns[i])
    ensures LowerLabel(columns, Lower(columns[i])) == Some(columns[i])
  {
    if i < |columns| - 1 {
      assert columns[..|columns| - 1][i] == columns[i];
      LowerLabelFinds(columns[..|columns| - 1], i);
    }
  }
}
