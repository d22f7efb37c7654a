/**
 * Sheet A and the food entries of the output document
 * (excel_to_json.py:86-121, 195-200): one entry per food name in order of
 * first appearance, its id and default taste from that first row, option
 * tastes appended row by row, and the default taste's track lists copied
 * into its `music`.
 */
module Catalogue {
  import opened Wrappers
  import opened Strings
  import opened Cells
  import opened Vocabulary
  import opened Normalize
  import opened Columns
  import opened Tracks
  import opened Index

  /** What the loop reads from one sheet-A row (excel_to_json.py:95-99). */
  datatype FoodRow = FoodRow(id: string, name: string, taste: string, option: Cell)

  /** One food of the output document. */
  datatype Food = Food(id: string, taste: string, options: seq<string>, music: map<string, seq<Track>>)

  /** The `OrderedDict` `data`: the food names in insertion order and the entry of each. */
  datatype Catalogue = Catalogue(names: seq<string>, foods: map<string, Food>)

  /** The four empty lists every entry starts with (excel_to_json.py:110-115). */
  const InitialMusic: map<string, seq<Track>> :=
    map["relaxation" := [], "excitement" := [], "focus" := [], "calm" := []]

  lemma InitialMusicKeys()
    ensures InitialMusic.Keys == Moods
    ensures forall m | m in InitialMusic :: InitialMusic[m] == []
  {
  }

  /** `a_cols.get(key, "")`: the sheet-A label for a lower-case key, or "" when none matches. */
  function LabelA(columns: seq<string>, key: string): string {
    match LowerLabel(columns, key)
    case Some(c) => c
    case None => ""
  }

  /**
   * excel_to_json.py:95-99 on the stripped labels: id and name are the
   * trimmed text of their cells, "" without the column; the default taste
   * is folded; the option cell reads as missing without its column.
   */
  function ReadFoodRow(columns: seq<string>, row: Row): (r: FoodRow)
    ensures LowerLabel(columns, "option_taste").None? ==> r.option == Missing
  {
    var option :=
      match LowerLabel(columns, "option_taste")
      case Some(c) => CellByLabel(columns, row, c, Missing)
      case None => Missing;
    FoodRow(
      Token(CellByLabel(columns, row, LabelA(columns, "food_id"), Text(""))),
      Token(CellByLabel(columns, row, LabelA(columns, "food_name"), Text(""))),
      NormTaste(CellByLabel(columns, row, LabelA(columns, "default_taste"), Text(""))),
      option)
  }

  /**
   * A sheet-A column that no header matches reads as empty in every row:
   * `a_cols.get(key, "")` gives "", and `r.get("", "")` the default "".
   */
  lemma MissingColumnsRead(columns: seq<string>, row: Row)
    requires "" !in columns
    ensures LowerLabel(columns, "food_id").None? ==> ReadFoodRow(columns, row).id == ""
    ensures LowerLabel(columns, "food_name").None? ==> ReadFoodRow(columns, row).name == ""
    ensures LowerLabel(columns, "default_taste").None? ==> ReadFoodRow(columns, row).taste == ""
    ensures LowerLabel(columns, "option_taste").None? ==> !HasOption(ReadFoodRow(columns, row))
  {
    StripFixed(Python, "");
  }

  /** Two first occurrences of the same label are the same position. */
  lemma FirstOccurrence(columns: seq<string>, i: nat, k: nat)
    requires i < |columns| && k < |columns| && columns[i] == columns[k]
    requires columns[i] !in columns[..i] && columns[k] !in columns[..k]
    ensures i == k
  {
  }

  /**
   * The sheet-A cell under a lower-case key: the column whose label is the
   * last one lower-casing to the key, read by that label.
   */
  lemma LabelACell(columns: seq<string>, row: Row, key: string, i: nat, absent: Cell)
    requires i < |columns| && Lower(columns[i]) == key && columns[i] !in columns[..i]
    requires forall j | i < j < |columns| :: Lower(columns[j]) != key
    ensures CellByLabel(columns, row, LabelA(columns, key), absent) == CellAt(row, i)
  {
    LowerLabelFinds(columns, i);
    var name := columns[i];
    assert LabelA(columns, key) == name;
    var k :| 0 <= k < |columns| && columns[k] == name && name !in columns[..k]
      && CellByLabel(columns, row, name, absent) == CellAt(row, k);
    FirstOccurrence(columns, i, k);
  }

  /** A food_name header in any capitalisation: the name is that column's trimmed text. */
  lemma PresentNameRead(columns: seq<string>, row: Row, i: nat)
    requires i < |columns| && Lower(columns[i]) == "food_name" && columns[i] !in columns[..i]
    requires forall j | i < j < |columns| :: Lower(columns[j]) != "food_name"
    ensures ReadFoodRow(columns, row).name == Token(CellAt(row, i))
  {
    LabelACell(columns, row, "food_name", i, Text(""));
  }

  /** A food_id header in any capitalisation: the id is that column's trimmed text. */
  lemma PresentIdRead(columns: seq<string>, row: Row, i: nat)
    requires i < |columns| && Lower(columns[i]) == "food_id" && columns[i] !in columns[..i]
    requires forall j | i < j < |columns| :: Lower(columns[j]) != "food_id"
    ensures ReadFoodRow(columns, row).id == Token(CellAt(row, i))
  {
    LabelACell(columns, row, "food_id", i, Text(""));
  }

  /** A default_taste header in any capitalisation: the taste is that column's cell, folded. */
  lemma PresentTasteRead(columns: seq<string>, row: Row, i: nat)
    requires i < |columns| && Lower(columns[i]) == "default_taste" && columns[i] !in columns[..i]
    requires forall j | i < j < |columns| :: Lower(columns[j]) != "default_taste"
    ensures ReadFoodRow(columns, row).taste == NormTaste(CellAt(row, i))
  {
    LabelACell(columns, row, "default_taste", i, Text(""));
  }

  /** An option_taste header in any capitalisation: the option is that column's cell. */
  lemma PresentOptionRead(columns: seq<string>, row: Row, i: nat)
    requires i < |columns| && Lower(columns[i]) == "option_taste" && columns[i] !in columns[..i]
    requires forall j | i < j < |columns| :: Lower(columns[j]) != "option_taste"
    ensures ReadFoodRow(columns, row).option == CellAt(row, i)
  {
    LowerLabelFinds(columns, i);
    LabelACell(columns, row, "option_taste", i, Missing);
  }

  function ReadFoodRows(columns: seq<string>, rows: seq<Row>): (r: seq<FoodRow>)
    ensures |r| == |rows|
    ensures forall i | 0 <= i < |rows| :: r[i] == ReadFoodRow(columns, rows[i])
  {
    seq(|rows|, i requires 0 <= i < |rows| => ReadFoodRow(columns, rows[i]))
  }

  /** `pd.notna(option_taste) and str(option_taste).strip()`. */
  predicate HasOption(r: FoodRow) {
    !r.option.Missing? && Token(r.option) != ""
  }

  /** One iteration of the loop at excel_to_json.py:94-121. */
  function AddFood(c: Catalogue, r: FoodRow): Catalogue {
    if r.name == "" then c
    else
      var entry := if r.name in c.foods then c.foods[r.name] else Food(r.id, r.taste, [], InitialMusic);
      var names := if r.name in c.foods then c.names else c.names + [r.name];
      var entry' := if HasOption(r) then entry.(options := entry.options + [NormTaste(r.option)]) else entry;
      Catalogue(names, c.foods[r.name := entry'])
  }

  /** Without a food_name column every row is skipped, and the document has no foods. */
  lemma {:induction false} NoNameColumn(columns: seq<string>, rows: seq<Row>)
    requires "" !in columns && LowerLabel(columns, "food_name").None?
    ensures CatalogueOf(ReadFoodRows(columns, rows)) == Catalogue([], map[])
  {
    var read := ReadFoodRows(columns, rows);
    forall i | 0 <= i < |read| ensures read[i].name == "" {
      MissingColumnsRead(columns, rows[i]);
    }
    NamelessRows(read);
  }

  lemma {:induction false} NamelessRows(read: seq<FoodRow>)
    requires forall i | 0 <= i < |read| :: read[i].name == ""
    ensures CatalogueOf(read) == Catalogue([], map[])
  {
    if read != [] {
      NamelessRows(read[..|read| - 1]);
    }
  }

  /** The catalogue after the loop has seen `rows`. */
  function CatalogueOf(rows: seq<FoodRow>): Catalogue {
    if rows == [] then Catalogue([], map[])
    else AddFood(CatalogueOf(rows[..|rows| - 1]), rows[|rows| - 1])
  }

  lemma CatalogueSnoc(rows: seq<FoodRow>, r: FoodRow)
    ensures CatalogueOf(rows + [r]) == AddFood(CatalogueOf(rows), r)
  {
    assert (rows + [r])[..|rows|] == rows;
  }

  lemma CatalogueStep(rows: seq<FoodRow>, i: nat)
    requires i < |rows|
    ensures CatalogueOf(rows[..i + 1]) == AddFood(CatalogueOf(rows[..i]), rows[i])
  {
    assert rows[..i + 1] == rows[..i] + [rows[i]];
    CatalogueSnoc(rows[..i], rows[i]);
  }

  /** The loop of excel_to_json.py:94-121 over the rows of sheet A (labels already stripped). */
  method BuildCatalogue(columns: seq<string>, rows: seq<Row>) returns (names: seq<string>, foods: map<string, Food>)
    ensures Catalogue(names, foods) == CatalogueOf(ReadFoodRows(columns, rows))
  {
    names, foods := AddRows(ReadFoodRows(columns, rows));
  }

  /** The loop at excel_to_json.py:94-121 over the rows as read. */
  method AddRows(read: seq<FoodRow>) returns (names: seq<string>, foods: map<string, Food>)
    ensures Catalogue(names, foods) == CatalogueOf(read)
  {
    names, foods := [], map[];
    var i := 0;
    while i < |read|
      invariant 0 <= i <= |read|
      invariant Catalogue(names, foods) == CatalogueOf(read[..i])
    {
      names, foods := AddRow(names, foods, read[i]);
      CatalogueStep(read, i);
      i := i + 1;
    }
    assert read[..i] == read;
  }

  /** The body of the loop at excel_to_json.py:94-121 for one row read from sheet A. */
  method AddRow(names: seq<string>, foods: map<string, Food>, r: FoodRow)
    returns (names': seq<string>, foods': map<string, Food>)
    ensures Catalogue(names', foods') == AddFood(Catalogue(names, foods), r)
  {
    names', foods' := names, foods;
    if r.name != "" {
      var entry := if r.name in foods then foods[r.name] else Food(r.id, r.taste, [], InitialMusic);
      if r.name !in foods {
        names' := names + [r.name];
      }
      if HasOption(r) {
        entry := entry.(options := entry.options + [NormTaste(r.option)]);
      }
      foods' := foods[r.name := entry];
    }
  }

  /** The distinct non-empty names of the rows. */
  function NamesIn(rows: seq<FoodRow>): set<string> {
    set i | 0 <= i < |rows| && rows[i].name != "" :: rows[i].name
  }

  /** The position of the first row with the given name; `|rows|` when there is none. */
  function FirstRow(rows: seq<FoodRow>, name: string): (i: nat)
    ensures i <= |rows|
    ensures i < |rows| ==> rows[i].name == name
    ensures forall j | 0 <= j < i :: rows[j].name != name
  {
    if rows == [] then 0
    else if rows[0].name == name then 0
    else 1 + FirstRow(rows[1..], name)
  }

  lemma FirstRowUnique(rows: seq<FoodRow>, name: string, i: nat)
    requires i < |rows| && rows[i].name == name && forall j | 0 <= j < i :: rows[j].name != name
    ensures FirstRow(rows, name) == i
  {
  }

  /** The first row of a name stays its first row as more rows are read. */
  lemma FirstRowSnoc(rows: seq<FoodRow>, r: FoodRow, name: string)
    requires FirstRow(rows, name) < |rows|
    ensures FirstRow(rows + [r], name) == FirstRow(rows, name)
  {
    var f := FirstRow(rows, name);
    assert (rows + [r])[f] == rows[f];
    forall j | 0 <= j < f ensures (rows + [r])[j].name != name {
      assert (rows + [r])[j] == rows[j];
    }
    FirstRowUnique(rows + [r], name, f);
  }

  /** A name seen for the first time has its first row at the end. */
  lemma FirstRowNew(rows: seq<FoodRow>, r: FoodRow)
    requires FirstRow(rows, r.name) == |rows|
    ensures FirstRow(rows + [r], r.name) == |rows|
  {
    var s := rows + [r];
    assert s[|rows|] == r;
    forall j | 0 <= j < |rows| ensures s[j].name != r.name {
      assert s[j] == rows[j];
    }
    FirstRowUnique(s, r.name, |rows|);
  }

  /** A non-empty name occurs among the rows exactly when it is one of their names. */
  lemma FirstRowNames(rows: seq<FoodRow>, name: string)
    requires name != ""
    ensures FirstRow(rows, name) < |rows| <==> name in NamesIn(rows)
  {
    if name in NamesIn(rows) {
      var i :| 0 <= i < |rows| && rows[i].name != "" && rows[i].name == name;
      assert FirstRow(rows, name) <= i;
    }
  }

  lemma NamesSnoc(rows: seq<FoodRow>, r: FoodRow)
    ensures NamesIn(rows + [r]) == NamesIn(rows) + (if r.name != "" then {r.name} else {})
  {
    var s := rows + [r];
    forall n | n in NamesIn(s) ensures n in NamesIn(rows) + (if r.name != "" then {r.name} else {}) {
      var i :| 0 <= i < |s| && s[i].name != "" && s[i].name == n;
      if i < |rows| {
        assert rows[i] == s[i];
      }
    }
    forall n | n in NamesIn(rows) ensures n in NamesIn(s) {
      var i :| 0 <= i < |rows| && rows[i].name != "" && rows[i].name == n;
      assert s[i] == rows[i];
    }
    assert s[|rows|] == r;
  }

  /** Names listed once each, and exactly the keys of the entries. */
  predicate Valid(c: Catalogue) {
    (forall i, j | 0 <= i < j < |c.names| :: c.names[i] != c.names[j])
    && (forall i | 0 <= i < |c.names| :: c.names[i] in c.foods)
    && (forall n | n in c.foods :: n in c.names)
  }

  /**
   * One entry per distinct non-empty food name, each listed once: the
   * catalogue's keys are the names of the rows, "" excluded.
   */
  lemma {:induction false} CatalogueNames(rows: seq<FoodRow>)
    ensures Valid(CatalogueOf(rows))
    ensures CatalogueOf(rows).foods.Keys == NamesIn(rows)
  {
    if rows != [] {
      var rows' := rows[..|rows| - 1];
      var r := rows[|rows| - 1];
      assert rows == rows' + [r];
      CatalogueNames(rows');
      CatalogueSnoc(rows', r);
      NamesSnoc(rows', r);
      var c := CatalogueOf(rows');
      if r.name != "" && r.name !in c.foods {
        var names := c.names + [r.name];
        forall i, j | 0 <= i < j < |names| ensures names[i] != names[j] {
          if j == |c.names| {
            assert names[i] in c.names;
          } else {
            assert names[i] == c.names[i] && names[j] == c.names[j];
          }
        }
      }
    }
  }

  /** The food `f` has the id and default taste of the first row named `n`. */
  predicate FromFirstRow(rows: seq<FoodRow>, n: string, f: Food) {
    FirstRow(rows, n) < |rows| && f.id == rows[FirstRow(rows, n)].id && f.taste == rows[FirstRow(rows, n)].taste
  }

  /** The step of `CatalogueFirstRows` for a name already in the catalogue. */
  lemma FirstRowsKept(rows: seq<FoodRow>, c: Catalogue, r: FoodRow, n: string)
    requires c.foods.Keys == NamesIn(rows) && n in c.foods && FromFirstRow(rows, n, c.foods[n])
    ensures n in AddFood(c, r).foods && FromFirstRow(rows + [r], n, AddFood(c, r).foods[n])
  {
    FirstRowNames(rows, n);
    FirstRowSnoc(rows, r, n);
    assert (rows + [r])[FirstRow(rows, n)] == rows[FirstRow(rows, n)];
  }

  /** The step of `CatalogueFirstRows` for a name seen for the first time. */
  lemma FirstRowsNew(rows: seq<FoodRow>, c: Catalogue, r: FoodRow)
    requires c.foods.Keys == NamesIn(rows) && r.name != "" && r.name !in c.foods
    ensures r.name in AddFood(c, r).foods && FromFirstRow(rows + [r], r.name, AddFood(c, r).foods[r.name])
  {
    FirstRowNames(rows, r.name);
    FirstRowNew(rows, r);
    assert (rows + [r])[|rows|] == r;
  }

  lemma FirstRowsStep(rows: seq<FoodRow>, c: Catalogue, r: FoodRow)
    requires c.foods.Keys == NamesIn(rows)
    requires forall n | n in c.foods :: FromFirstRow(rows, n, c.foods[n])
    ensures forall n | n in AddFood(c, r).foods :: FromFirstRow(rows + [r], n, AddFood(c, r).foods[n])
  {
    forall n | n in AddFood(c, r).foods ensures FromFirstRow(rows + [r], n, AddFood(c, r).foods[n]) {
      if n in c.foods {
        FirstRowsKept(rows, c, r, n);
      } else {
        FirstRowsNew(rows, c, r);
      }
    }
  }

  /**
   * Each entry's id and default taste are those of its name's first row:
   * later rows never overwrite them.
   */
  lemma {:induction false} CatalogueFirstRows(rows: seq<FoodRow>)
    ensures forall n | n in CatalogueOf(rows).foods :: FromFirstRow(rows, n, CatalogueOf(rows).foods[n])
  {
    if rows != [] {
      var rows' := rows[..|rows| - 1];
      var r := rows[|rows| - 1];
      assert rows == rows' + [r];
      CatalogueFirstRows(rows');
      CatalogueNames(rows');
      CatalogueSnoc(rows', r);
      FirstRowsStep(rows', CatalogueOf(rows'), r);
    }
  }

  /** Each name has a row, and the names stand in the order of their first rows. */
  predicate FirstSeenOrder(rows: seq<FoodRow>, names: seq<string>) {
    (forall i | 0 <= i < |names| :: FirstRow(rows, names[i]) < |rows|)
    && forall i, j | 0 <= i < j < |names| :: FirstRow(rows, names[i]) < FirstRow(rows, names[j])
  }

  /** Reading one more row keeps the first row of every name already listed. */
  lemma FirstRowsStay(rows: seq<FoodRow>, r: FoodRow, names: seq<string>)
    requires forall i | 0 <= i < |names| :: FirstRow(rows, names[i]) < |rows|
    ensures forall i | 0 <= i < |names| :: FirstRow(rows + [r], names[i]) == FirstRow(rows, names[i])
  {
    forall i | 0 <= i < |names| ensures FirstRow(rows + [r], names[i]) == FirstRow(rows, names[i]) {
      FirstRowSnoc(rows, r, names[i]);
    }
  }

  lemma FirstSeenOrderSnoc(rows: seq<FoodRow>, r: FoodRow)
    requires CatalogueOf(rows).foods.Keys == NamesIn(rows)
    requires FirstSeenOrder(rows, CatalogueOf(rows).names)
    ensures FirstSeenOrder(rows + [r], AddFood(CatalogueOf(rows), r).names)
  {
    var c := CatalogueOf(rows);
    FirstRowsStay(rows, r, c.names);
    assert FirstSeenOrder(rows + [r], c.names);
    if AddFood(c, r).names != c.names {
      FirstRowNames(rows, r.name);
      FirstRowNew(rows, r);
      FirstSeenOrderAppend(rows + [r], c.names, r.name);
    }
  }

  lemma {:induction false} FirstSeenOrderAppend(rows: seq<FoodRow>, names: seq<string>, n: string)
    requires FirstSeenOrder(rows, names) && FirstRow(rows, n) < |rows|
    requires forall i | 0 <= i < |names| :: FirstRow(rows, names[i]) < FirstRow(rows, n)
    ensures FirstSeenOrder(rows, names + [n])
  {
    var names' := names + [n];
    forall i | 0 <= i < |names'| ensures FirstRow(rows, names'[i]) < |rows| {
      if i < |names| {
        assert names'[i] == names[i];
      }
    }
    forall i, j | 0 <= i < j < |names'| ensures FirstRow(rows, names'[i]) < FirstRow(rows, names'[j]) {
      assert names'[i] == names[i];
      if j < |names| {
        assert names'[j] == names[j];
      }
    }
  }

  /** Names are listed in order of their first appearance in the sheet. */
  lemma {:induction false} CatalogueOrder(rows: seq<FoodRow>)
    ensures FirstSeenOrder(rows, CatalogueOf(rows).names)
  {
    if rows != [] {
      var rows' := rows[..|rows| - 1];
      var r := rows[|rows| - 1];
      assert rows == rows' + [r];
      CatalogueOrder(rows');
      CatalogueNames(rows');
      CatalogueSnoc(rows', r);
      FirstSeenOrderSnoc(rows', r);
    }
  }

  /** The normalised option tastes of the rows with the given name, in row order. */
  function OptionsFor(rows: seq<FoodRow>, name: string): seq<string> {
    if rows == [] then []
    else
      var r := rows[|rows| - 1];
      OptionsFor(rows[..|rows| - 1], name) + (if r.name == name && HasOption(r) then [NormTaste(r.option)] else [])
  }

  /**
   * Every row of a food with a non-blank option taste appends its
   * normalised value, in row order, duplicates kept; every entry keeps the
   * four empty initial lists until music is assigned.
   */
  lemma OptionsSnoc(rows: seq<FoodRow>, r: FoodRow, name: string)
    ensures OptionsFor(rows + [r], name) == OptionsFor(rows, name) + (if r.name == name && HasOption(r) then [NormTaste(r.option)] else [])
  {
    assert (rows + [r])[..|rows|] == rows;
  }

  /** The step of `CatalogueOptions` for one name. */
  lemma OptionsStep(rows: seq<FoodRow>, r: FoodRow, n: string)
    requires CatalogueOf(rows).foods.Keys == NamesIn(rows)
    requires n in CatalogueOf(rows).foods ==>
      CatalogueOf(rows).foods[n].options == OptionsFor(rows, n) && CatalogueOf(rows).foods[n].music == InitialMusic
    requires n in AddFood(CatalogueOf(rows), r).foods
    ensures AddFood(CatalogueOf(rows), r).foods[n].options == OptionsFor(rows + [r], n)
    ensures AddFood(CatalogueOf(rows), r).foods[n].music == InitialMusic
  {
    OptionsSnoc(rows, r, n);
    if n !in CatalogueOf(rows).foods {
      assert n !in NamesIn(rows);
      if OptionsFor(rows, n) != [] {
        OptionsFromRows(rows, n);
      }
    }
  }

  /**
   * Every row of a food with a non-blank option taste appends its
   * normalised value, in row order, duplicates kept; every entry keeps the
   * four empty initial lists until music is assigned.
   */
  lemma {:induction false} CatalogueOptions(rows: seq<FoodRow>)
    ensures forall n | n in CatalogueOf(rows).foods ::
      CatalogueOf(rows).foods[n].options == OptionsFor(rows, n)
      && CatalogueOf(rows).foods[n].music == InitialMusic
  {
    if rows != [] {
      var rows' := rows[..|rows| - 1];
      var r := rows[|rows| - 1];
      assert rows == rows' + [r];
      CatalogueOptions(rows');
      CatalogueNames(rows');
      CatalogueSnoc(rows', r);
      forall n | n in CatalogueOf(rows).foods
        ensures CatalogueOf(rows).foods[n].options == OptionsFor(rows, n)
        ensures CatalogueOf(rows).foods[n].music == InitialMusic
      {
        OptionsStep(rows', r, n);
      }
    }
  }

  /** A name with options has a row. */
  lemma {:induction false} OptionsFromRows(rows: seq<FoodRow>, name: string)
    requires OptionsFor(rows, name) != [] && name != ""
    ensures name in NamesIn(rows)
  {
    var rows' := rows[..|rows| - 1];
    var r := rows[|rows| - 1];
    if r.name == name && HasOption(r) {
      assert rows[|rows| - 1].name == name;
    } else {
      assert OptionsFor(rows, name) == OptionsFor(rows', name) + [];
      OptionsFromRows(rows', name);
      var i :| 0 <= i < |rows'| && rows'[i].name != "" && rows'[i].name == name;
      assert rows[i] == rows'[i];
    }
  }

  /** A blank name cell reads "nan", which is not empty: such rows form a food called "nan". */
  lemma BlankNameIsNan(columns: seq<string>, row: Row)
    requires CellByLabel(columns, row, LabelA(columns, "food_name"), Text("")) == Missing
    ensures ReadFoodRow(columns, row).name == "nan"
  {
    StripFixed(Python, "nan");
  }

  /**
   * excel_to_json.py:196-200 for one entry: when the index has lists for
   * the entry's default taste, each of them replaces (or adds) the
   * entry's list of that mood.
   */
  function WithMusic(f: Food, idx: TrackIndex): Food {
    if f.taste in idx then f.(music := f.music + idx[f.taste]) else f
  }

  /** The entries of `m` under the given keys. */
  function Restrict(m: map<string, seq<Track>>, keys: set<string>): map<string, seq<Track>>
    requires keys <= m.Keys
  {
    map k | k in keys :: m[k]
  }

  lemma RestrictAdd(m: map<string, seq<Track>>, keys: set<string>, k: string)
    requires keys <= m.Keys && k in m
    ensures Restrict(m, keys + {k}) == Restrict(m, keys)[k := m[k]]
  {
  }

  lemma RestrictAll(m: map<string, seq<Track>>)
    ensures Restrict(m, m.Keys) == m
  {
  }

  /** The inner loop of excel_to_json.py:199-200: each mood's list of the index replaces the entry's. */
  method CopyLists(music: map<string, seq<Track>>, byMood: map<string, seq<Track>>) returns (r: map<string, seq<Track>>)
    ensures r == music + byMood
  {
    r := music;
    var pending := byMood.Keys;
    while pending != {}
      invariant pending <= byMood.Keys
      invariant r == music + Restrict(byMood, byMood.Keys - pending)
    {
      var m :| m in pending;
      RestrictAdd(byMood, byMood.Keys - pending, m);
      assert byMood.Keys - (pending - {m}) == (byMood.Keys - pending) + {m};
      r := r[m := byMood[m]];
      pending := pending - {m};
    }
    assert byMood.Keys - pending == byMood.Keys;
    RestrictAll(byMood);
  }

  /** The entries once the assignment loop has visited the names in `done`. */
  ghost function Assigned(c: Catalogue, idx: TrackIndex, done: set<string>): map<string, Food> {
    map n | n in c.foods :: if n in done then WithMusic(c.foods[n], idx) else c.foods[n]
  }

  lemma AssignedStep(c: Catalogue, idx: TrackIndex, done: set<string>, n: string)
    requires n in c.foods && n !in done
    ensures n in Assigned(c, idx, done)
    ensures Assigned(c, idx, done)[n] == c.foods[n]
    ensures Assigned(c, idx, done + {n}) == Assigned(c, idx, done)[n := WithMusic(c.foods[n], idx)]
  {
  }

  lemma AssignedAll(c: Catalogue, idx: TrackIndex)
    ensures Assigned(c, idx, c.foods.Keys) == map n | n in c.foods :: WithMusic(c.foods[n], idx)
  {
  }

  /** The assignment loop of excel_to_json.py:195-200 over the entries, in order. */
  method AssignMusic(c: Catalogue, idx: TrackIndex) returns (foods: map<string, Food>)
    requires Valid(c)
    ensures foods == map n | n in c.foods :: WithMusic(c.foods[n], idx)
  {
    foods := c.foods;
    var i := 0;
    ghost var done: set<string> := {};
    while i < |c.names|
      invariant 0 <= i <= |c.names|
      invariant done == set j | 0 <= j < i :: c.names[j]
      invariant foods == Assigned(c, idx, done)
    {
      var name := c.names[i];
      assert name !in done;
      AssignedStep(c, idx, done, name);
      var entry := foods[name];
      if entry.taste in idx {
        var music := CopyLists(entry.music, idx[entry.taste]);
        foods := foods[name := entry.(music := music)];
      } else {
        assert foods[name := WithMusic(entry, idx)] == foods;
      }
      done := done + {name};
      i := i + 1;
    }
    assert done == c.foods.Keys;
    AssignedAll(c, idx);
  }

  /**
   * The music of an entry built by the catalogue loop: the four moods are
   * always present, the keys grow by every mood the index has for the
   * entry's default taste, those lists are the index's, and every other
   * list stays empty. Options, id and taste are untouched.
   */
  lemma MusicSpec(f: Food, idx: TrackIndex, m: string)
    requires f.music == InitialMusic
    ensures WithMusic(f, idx).id == f.id && WithMusic(f, idx).taste == f.taste && WithMusic(f, idx).options == f.options
    ensures m in WithMusic(f, idx).music <==> m in Moods || (f.taste in idx && m in idx[f.taste])
    ensures f.taste in idx && m in idx[f.taste] ==> WithMusic(f, idx).music[m] == idx[f.taste][m]
    ensures m in Moods && !(f.taste in idx && m in idx[f.taste]) ==> WithMusic(f, idx).music[m] == []
  {
    InitialMusicKeys();
  }

  /** The music of an entry depends on its default taste only: option tastes never affect it. */
  lemma MusicIgnoresOptions(f: Food, g: Food, idx: TrackIndex)
    requires f.taste == g.taste && f.music == g.music
    ensures WithMusic(f, idx).music == WithMusic(g, idx).music
  {
  }
}
