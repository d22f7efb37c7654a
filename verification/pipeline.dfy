/**
 * The whole conversion of excel_to_json.py:78-200: sheet A gives the food
 * entries, sheet B the songs, and each entry receives the track lists of
 * its default taste. The document is what `json.dump` writes at
 * excel_to_json.py:206-207; a sheet B without one of the four required
 * columns stops the conversion with the candidate list of the first
 * missing one.
 */
module Pipeline {
  import opened Wrappers
  import opened Strings
  import opened Cells
  import opened Vocabulary
  import opened Columns
  import opened Tracks
  import opened Ordering
  import opened Index
  import opened Catalogue

  /** The header labels of sheet B as `find_col` sees them: stripped at line 81 and again at line 125. */
  function LabelsB(b: Table): seq<string> {
    StripAll(StripAll(b.columns))
  }

  /** The food rows of sheet A, read under its stripped labels. */
  function FoodRowsOf(a: Table): seq<FoodRow> {
    ReadFoodRows(StripAll(a.columns), a.rows)
  }

  /** The surviving songs of sheet B in sheet order, for a resolved layout. */
  function SongsOf(layout: Layout, b: Table): seq<Song> {
    Extract(layout, LabelsB(b), b.rows)
  }

  /** The songs in the order of the stable sort, with the rank key when some song has a rank. */
  function SortedSongs(songs: seq<Song>): seq<Song> {
    Sort(songs, AnyRank(songs))
  }

  /** The output document for the two sheets, or the candidate list of the missing required column. */
  function Document(a: Table, b: Table): Result<Catalogue, seq<string>> {
    var cat := CatalogueOf(FoodRowsOf(a));
    var layout :- ResolveB(LabelsB(b));
    var idx := IndexOf(SortedSongs(SongsOf(layout, b)));
    Success(Catalogue(cat.names, map n | n in cat.foods :: WithMusic(cat.foods[n], idx)))
  }

  /** `main` from the column clean-up to the assignment of music, with the loops as written. */
  method Convert(a: Table, b: Table) returns (r: Result<Catalogue, seq<string>>)
    ensures r == Document(a, b)
  {
    var names, foods := BuildCatalogue(StripAll(a.columns), a.rows);
    var labels := StripAll(StripAll(b.columns));
    var resolved := ResolveB(labels);
    if resolved.Failure? {
      return Failure(resolved.error);
    }
    var songs := Extract(resolved.value, labels, b.rows);
    var idx := BuildIndex(Sort(songs, AnyRank(songs)));
    CatalogueNames(FoodRowsOf(a));
    foods := AssignMusic(Catalogue(names, foods), idx);
    r := Success(Catalogue(names, foods));
  }

  /**
   * The conversion fails exactly when one of the four required fields has
   * no column among the stripped labels of sheet B, and then reports that
   * field's candidate list; sheet A never makes it fail.
   */
  lemma DocumentFails(a: Table, b: Table)
    ensures Document(a, b).Failure? <==>
      NoneBefore(LabelsB(b), TasteAliases, |TasteAliases|) || NoneBefore(LabelsB(b), MoodAliases, |MoodAliases|)
      || NoneBefore(LabelsB(b), TitleAliases, |TitleAliases|) || NoneBefore(LabelsB(b), UriAliases, |UriAliases|)
    ensures Document(a, b).Failure? ==> Document(a, b).error == FirstMissing(LabelsB(b))
  {
  }

  /** Labels are stripped once in effect: the second strip at line 125 changes nothing. */
  lemma LabelsStrippedOnce(b: Table)
    ensures LabelsB(b) == StripAll(b.columns)
  {
    StripAllIdempotent(b.columns);
  }

  /** The document on success: the catalogue of sheet A with each entry given its music. */
  lemma DocumentValue(a: Table, b: Table)
    requires Document(a, b).Success?
    ensures var cat := CatalogueOf(FoodRowsOf(a));
      var idx := IndexOf(SortedSongs(SongsOf(ResolveB(LabelsB(b)).value, b)));
      Document(a, b).value == Catalogue(cat.names, map n | n in cat.foods :: WithMusic(cat.foods[n], idx))
  {
  }

  /** Assigning music keeps every entry's id, default taste and options. */
  lemma MusicKeepsEntries(cat: Catalogue, idx: TrackIndex)
    ensures var foods := map n | n in cat.foods :: WithMusic(cat.foods[n], idx);
      foods.Keys == cat.foods.Keys
      && forall n | n in foods ::
        foods[n].id == cat.foods[n].id && foods[n].taste == cat.foods[n].taste && foods[n].options == cat.foods[n].options
  {
  }

  /**
   * The entries of the document: one per distinct non-empty food name of
   * sheet A, listed once each in order of first appearance.
   */
  lemma DocumentEntries(a: Table, b: Table)
    requires Document(a, b).Success?
    ensures Valid(Document(a, b).value)
    ensures Document(a, b).value.foods.Keys == NamesIn(FoodRowsOf(a))
    ensures FirstSeenOrder(FoodRowsOf(a), Document(a, b).value.names)
  {
    var rows := FoodRowsOf(a);
    var cat := CatalogueOf(rows);
    DocumentValue(a, b);
    MusicKeepsEntries(cat, IndexOf(SortedSongs(SongsOf(ResolveB(LabelsB(b)).value, b))));
    CatalogueNames(rows);
    CatalogueOrder(rows);
  }

  /**
   * Each entry has the id and default taste of its name's first row of
   * sheet A and the option tastes of all its rows.
   */
  lemma DocumentFirstRows(a: Table, b: Table, n: string)
    requires Document(a, b).Success? && n in Document(a, b).value.foods
    ensures var rows := FoodRowsOf(a);
      var f := Document(a, b).value.foods[n];
      FirstRow(rows, n) < |rows| && f.id == rows[FirstRow(rows, n)].id
      && f.taste == rows[FirstRow(rows, n)].taste && f.options == OptionsFor(rows, n)
  {
    var rows := FoodRowsOf(a);
    var cat := CatalogueOf(rows);
    DocumentValue(a, b);
    MusicKeepsEntries(cat, IndexOf(SortedSongs(SongsOf(ResolveB(LabelsB(b)).value, b))));
    CatalogueFirstRows(rows);
    CatalogueOptions(rows);
  }

  /** The list of one (taste, mood) pair in the index equals the pair's songs, sorted. */
  lemma IndexedList(songs: seq<Song>, taste: string, mood: string)
    requires taste in IndexOf(SortedSongs(songs)) && mood in IndexOf(SortedSongs(songs))[taste]
    ensures IndexOf(SortedSongs(songs))[taste][mood] == TracksOf(Sort(Group(songs, taste, mood), AnyRank(songs)))
  {
    IndexSpec(SortedSongs(songs), taste, mood);
    GroupSort(songs, taste, mood, AnyRank(songs));
  }

  /** A (taste, mood) pair has a list in the index exactly when some surviving song has both. */
  lemma IndexedPair(songs: seq<Song>, taste: string, mood: string)
    ensures (taste in IndexOf(SortedSongs(songs)) && mood in IndexOf(SortedSongs(songs))[taste])
      <==> Group(songs, taste, mood) != []
  {
    var sorted := SortedSongs(songs);
    IndexSpec(sorted, taste, mood);
    GroupSort(songs, taste, mood, AnyRank(songs));
    if Group(songs, taste, mood) != [] {
      var g := Group(sorted, taste, mood);
      assert |g| == |Group(songs, taste, mood)|;
      assert g[0] in g;
      var i :| 0 <= i < |sorted| && sorted[i] == g[0];
      assert sorted[i].taste == taste && sorted[i].mood == mood;
    }
  }

  /**
   * The music of one entry: the four moods always have a list, a further
   * mood has one exactly when sheet B has a surviving song with the
   * entry's default taste and that mood, and each list is that pair's
   * songs in sorted order (empty when there are none).
   */
  lemma DocumentMusic(a: Table, b: Table, n: string, m: string)
    requires Document(a, b).Success? && n in Document(a, b).value.foods
    ensures var layout := ResolveB(LabelsB(b)).value;
      var songs := SongsOf(layout, b);
      var f := Document(a, b).value.foods[n];
      (m in f.music <==> m in Moods || Group(songs, f.taste, m) != [])
      && (m in f.music ==> f.music[m] == TracksOf(Sort(Group(songs, f.taste, m), AnyRank(songs))))
  {
    var layout := ResolveB(LabelsB(b)).value;
    var songs := SongsOf(layout, b);
    var rows := FoodRowsOf(a);
    var cat := CatalogueOf(rows);
    var idx := IndexOf(SortedSongs(songs));
    var f0 := cat.foods[n];
    CatalogueOptions(rows);
    MusicSpec(f0, idx, m);
    IndexedPair(songs, f0.taste, m);
    if f0.taste in idx && m in idx[f0.taste] {
      IndexedList(songs, f0.taste, m);
    } else if m in Moods {
      assert Group(songs, f0.taste, m) == [];
    }
  }

  /**
   * A list none of whose songs has a rank keeps sheet order, even when
   * other songs have ranks and the rank key is in use.
   */
  lemma UnrankedListInSheetOrder(songs: seq<Song>, taste: string, mood: string)
    requires !AnyRank(Group(songs, taste, mood))
    ensures Sort(Group(songs, taste, mood), AnyRank(songs)) == Group(songs, taste, mood)
  {
    var g := Group(songs, taste, mood);
    SortFlagIrrelevant(g);
    SortSameGroup(g, taste, mood);
  }

  /**
   * A list sorted with the rank key holds the pair's songs, ranked songs
   * first by ascending rank, then the unranked ones, ties in sheet order.
   */
  lemma RankedList(layout: Layout, b: Table, taste: string, mood: string)
    ensures var g := Group(SongsOf(layout, b), taste, mood);
      var r := Sort(g, true);
      multiset(r) == multiset(g)
      && forall i, j | 0 <= i < j < |r| ::
        !RankLess(r[j].rank, r[i].rank) && (RankLess(r[i].rank, r[j].rank) || r[i].pos < r[j].pos)
  {
    var songs := SongsOf(layout, b);
    ExtractSpec(layout, LabelsB(b), b.rows);
    GroupInSheetOrder(songs, taste, mood);
    RankedGroupOrder(Group(songs, taste, mood), taste, mood);
  }

  /**
   * Every track of the document comes from one row of sheet B whose four
   * required fields are non-empty and whose taste and mood are the
   * entry's default taste and the list's mood.
   */
  lemma TracksFromRows(a: Table, b: Table, n: string, m: string, t: Track)
    requires Document(a, b).Success? && n in Document(a, b).value.foods
    requires m in Document(a, b).value.foods[n].music && t in Document(a, b).value.foods[n].music[m]
    ensures var layout := ResolveB(LabelsB(b)).value;
      exists i | 0 <= i < |b.rows| ::
        var s := NormalizeRow(layout, LabelsB(b), b.rows[i], i);
        Keep(s) && s.taste == Document(a, b).value.foods[n].taste && s.mood == m && t == MakeTrack(s)
  {
    var layout := ResolveB(LabelsB(b)).value;
    var f := Document(a, b).value.foods[n];
    DocumentMusic(a, b, n, m);
    var s := SongOfTrack(layout, b, f.taste, m, t);
    assert NormalizeRow(layout, LabelsB(b), b.rows[s.pos], s.pos) == s;
  }

  /** A track of a sorted list is the track of one of the list's surviving rows. */
  lemma SongOfTrack(layout: Layout, b: Table, taste: string, mood: string, t: Track) returns (s: Song)
    requires t in TracksOf(Sort(Group(SongsOf(layout, b), taste, mood), AnyRank(SongsOf(layout, b))))
    ensures s.pos < |b.rows| && s == NormalizeRow(layout, LabelsB(b), b.rows[s.pos], s.pos)
    ensures Keep(s) && s.taste == taste && s.mood == mood && t == MakeTrack(s)
  {
    var songs := SongsOf(layout, b);
    var g := Group(songs, taste, mood);
    var r := Sort(g, AnyRank(songs));
    var k :| 0 <= k < |r| && TracksOf(r)[k] == t;
    SortPermutes(g, AnyRank(songs));
    assert r[k] in multiset(g);
    s := r[k];
    ExtractSpec(layout, LabelsB(b), b.rows);
  }
}
