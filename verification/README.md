# food_music in Dafny

A model of the two halves of food_music: the converter that turns a
two-sheet workbook into the food → mood → tracks document
(`excel_to_json.py`), and the pure helpers of the browser player that reads
that document (`script.js`).

The converter reads sheet A (one row per food, possibly repeated, with an
id, a name, a default taste and an optional option taste) and sheet B (one
row per song, with taste, mood, title and uri columns found through alias
lists, and optional artist, rank, weight and instrumental columns). The
model follows it step by step:

- cells and header labels: `Cells`, `Strings` (Python's `strip` and
  JavaScript's `trim` as two white-space sets, ASCII lower-casing, Python's
  string order);
- the folding tables and `norm_taste`, `norm_mood`, `to_bool_or_none`:
  `Vocabulary`, `Normalize`, with worked examples in `NormalizeExamples`;
- `find_col`, the sheet-B layout and the case-insensitive sheet-A lookup:
  `Columns`;
- the per-row helper columns, the required-field filter and the track
  dictionary: `Tracks`;
- the stable `sort_values` by taste, mood and (when any row has one) rank:
  `Ordering`, as a stable insertion sort;
- the `taste_mood_tracks` loop: `Index`, an imperative loop proved equal
  to a map comprehension;
- the `OrderedDict` of foods and the music assignment: `Catalogue`,
  imperative loops proved equal to a fold over the rows;
- the whole conversion and the properties of its output: `Pipeline`.

The player side is `Labels` and `LabelWords` (`translateTaste`,
`displayMood`, and how their words relate to the converter's tables) and
`Player` (`getTracksFor`, `pickOneTrack`, the local-audio test).

Where the code and its documentation disagree, the model follows the code:

- Sheet A's headers are matched case-insensitively (`a_cols` is keyed by
  the lower-cased label; the last label wins for each lower-cased key), not
  by exact name.
- `music` always has the four mood keys, but it also gains a key for any
  other mood that sheet B pairs with the food's default taste (an
  unrecognised mood passes through lower-cased), so it is not limited to
  exactly four keys.
- A required sheet-B cell that is empty is not dropped: `astype(str)` makes
  it the text "nan", which passes the non-empty filter, so the row survives
  with title (or uri) "nan". Only taste and mood, which go through the
  normalisers, are really blank for an empty cell.

## Model

| member | source | states |
|---|---|---|
| Strings.Strip | excel_to_json.py:53 | the result has no white space at either end, is no longer than the input, and is empty exactly when the input is all white space |
| Strings.StripPadded | excel_to_json.py:53 | white space of either kind added around a word with no white space at its ends is removed again |
| Strings.StripIdempotent | excel_to_json.py:124-125 | stripping a stripped string changes nothing |
| Strings.Lower | excel_to_json.py:54 | lower-casing keeps the length |
| Strings.LowerSpec | excel_to_json.py:54 | no ASCII capital is left, each capital becomes its small letter, and every other character is kept |
| Strings.LowerIdempotent | excel_to_json.py:54 | lower-casing a lower-cased string changes nothing |
| Strings.StrLessTotal | excel_to_json.py:171 | Python's string order is total (with StrLessIrreflexive and StrLessTransitive, a strict total order) |
| Strings.StrLessIrreflexive | excel_to_json.py:171 | no string sorts before itself |
| Strings.StrLessTransitive | excel_to_json.py:171 | the string order is transitive |
| Strings.ParseIntToString | excel_to_json.py:148 | the decimal form of every integer parses back to that integer |
| Cells.StripAll | excel_to_json.py:80-81 | every header label is replaced by its stripped form, positions kept |
| Cells.StripAllIdempotent | excel_to_json.py:124-125 | the second strip of sheet B's labels changes nothing |
| Cells.ParseNumberText | excel_to_json.py:148 | a text cell holding an integer's decimal form converts like the number itself |
| Normalize.Fold | excel_to_json.py:54 | `get(s, s.lower())`: a word of the table gives its table value, any other word its lower-cased form; empty exactly for the empty word |
| Normalize.NormTaste | excel_to_json.py:51-54 | empty exactly for a missing or blank cell; trimmed text that is a spelling of the taste table gives that spelling's canonical taste, any other trimmed text comes back lower-cased |
| Normalize.NormMood | excel_to_json.py:56-59 | empty exactly for a missing or blank cell; trimmed text that is a spelling of the mood table gives that spelling's canonical mood, any other trimmed text comes back lower-cased |
| Normalize.TokenOfWord | excel_to_json.py:53 | a word without white space at its ends is its own trimmed text |
| Normalize.TasteSpelling | excel_to_json.py:14-20 | every spelling of the taste table, padded with any white space, folds to its canonical taste |
| Normalize.MoodSpelling | excel_to_json.py:23-28 | every spelling of the mood table, padded with any white space, folds to its canonical mood |
| Normalize.TasteCanonical | excel_to_json.py:51-54 | a canonical taste folds to itself |
| Normalize.MoodCanonical | excel_to_json.py:56-59 | a canonical mood folds to itself |
| Normalize.TokenToBool | excel_to_json.py:65-66 | true exactly for the true tokens, false exactly for the false tokens, none otherwise |
| Normalize.ToBoolOrNone | excel_to_json.py:61-67 | missing gives none, a boolean passes through, any other cell is true or false exactly when its trimmed lower-cased text is a true or false token |
| Normalize.TokensDisjoint | excel_to_json.py:65-66 | no token is both true and false |
| NormalizeExamples.SweetKana | excel_to_json.py:15 | "あまい" folds to "sweet" |
| NormalizeExamples.SweetLatin | excel_to_json.py:15 | "sweet" folds to "sweet" |
| NormalizeExamples.SweetSynonyms | excel_to_json.py:51-54 | "あまい" and "sweet" fold to the same token |
| NormalizeExamples.FooToken | excel_to_json.py:53 | " Foo " trims to "Foo" |
| NormalizeExamples.FooFold | excel_to_json.py:54 | an unknown word is lower-cased |
| NormalizeExamples.UnknownTaste | excel_to_json.py:51-54 | " Foo " folds to "foo": unknown tastes pass through, not rejected |
| NormalizeExamples.RelaxFold | excel_to_json.py:59 | "Relax" misses the table and is lower-cased to "relax" |
| NormalizeExamples.RelaxCapitalised | excel_to_json.py:56-59 | "Relax" is looked up before lower-casing, so it folds to "relax", not to "relaxation" |
| NormalizeExamples.RelaxLower | excel_to_json.py:24 | "relax" folds to "relaxation" |
| NormalizeExamples.RelaxNotCanonical | excel_to_json.py:56-59 | folding is not idempotent: "Relax" folds to "relax", which is not a canonical mood, and folding that again gives "relaxation" |
| NormalizeExamples.BlankIsNeither | excel_to_json.py:61-67 | a blank cell coerces to none |
| NormalizeExamples.NumbersCoerce | excel_to_json.py:61-67 | the numbers 1 and 0 coerce to true and false through their text |
| NormalizeExamples.YesToken | excel_to_json.py:64 | " YES " trims to "YES" |
| NormalizeExamples.YesLower | excel_to_json.py:64 | "YES" lower-cases to "yes" |
| NormalizeExamples.PaddedYes | excel_to_json.py:61-67 | " YES " coerces to true |
| Columns.FirstPresent | excel_to_json.py:44-46 | the first candidate, in candidate order, that is a column, with no earlier candidate a column; none when no candidate is |
| Columns.FindCol | excel_to_json.py:42-49 | fails with the candidate list exactly when the column is required and no candidate is present; none exactly when optional and absent; otherwise a present candidate with no earlier one present |
| Columns.FindColPriority | excel_to_json.py:44-46 | the highest-priority present candidate is picked wherever its column stands |
| Columns.ResolveB | excel_to_json.py:128-135 | succeeds exactly when taste, mood, title and uri all resolve; a failure carries the candidate list of the first of them, in that order, that does not; each resolved label is its field's highest-priority present alias, and an optional field is resolved exactly when one of its aliases is present |
| Columns.PicksUnique | excel_to_json.py:44-46 | the highest-priority present alias is unique, so the resolved labels are determined |
| Columns.ColumnIndex | excel_to_json.py:95 | the first position of a label, none exactly when the label is absent |
| Columns.CellByLabel | excel_to_json.py:95-99 | a row read under a present label gives the cell of the first column with that label; under an absent label, the default |
| Columns.LowerLabel | excel_to_json.py:86 | a label is found exactly when some header lower-cases to the key, and it is the last such header |
| Columns.LowerLabelFinds | excel_to_json.py:86 | a header is found under its lower-cased form when no later header shares that form |
| Tracks.WeightOf | excel_to_json.py:152-155 | 1.0 without a weight column or for a non-numeric cell, otherwise the cell's number |
| Tracks.NormalizeRow | excel_to_json.py:137-165 | each helper field of a row in terms of its cells: normalised taste and mood, trimmed title and uri, coerced rank, weight and flag (a flag exactly when the column exists and its cell coerces), trimmed artist |
| Tracks.NormalizeAll | excel_to_json.py:138-141 | every row is normalised at its own position |
| Tracks.Survivors | excel_to_json.py:143-144 | the filter keeps exactly the rows with all four required fields non-empty |
| Tracks.SurvivorsInOrder | excel_to_json.py:143-144 | the filter keeps sheet order |
| Tracks.ExtractSpec | excel_to_json.py:137-144 | a row survives exactly when its four required fields are non-empty; every survivor is one sheet row; survivors stay in sheet order |
| Tracks.MakeTrack | excel_to_json.py:176-190 | title, uri, weight, rank and flag are copied; the artist is kept exactly when present, non-empty and not "nan" in any case |
| Tracks.TracksOf | excel_to_json.py:175-192 | one track per song, in the same order |
| Tracks.MissingToken | excel_to_json.py:140-141 | an empty cell's text is "nan" |
| Tracks.BlankTitleSurvives | excel_to_json.py:140-144 | a row with an empty title cell but the other fields set survives with title "nan" |
| Tracks.BlankArtistOmitted | excel_to_json.py:180-181 | an empty artist cell gives a track without an artist |
| Ordering.BeforeSplit | excel_to_json.py:168-171 | the sort key order is a strict weak order |
| Ordering.NotBeforeTransitive | excel_to_json.py:168-171 | "not before" is transitive |
| Ordering.Insert | excel_to_json.py:171 | one insertion step grows the list by one |
| Ordering.Sort | excel_to_json.py:171 | the sort keeps the length |
| Ordering.SortPermutes | excel_to_json.py:171 | the sort is a permutation |
| Ordering.SortSorted | excel_to_json.py:171 | no song comes after one it sorts before |
| Ordering.SortOrdered | excel_to_json.py:167-171 | rows in sheet order come out sorted with ties in sheet order: the stable sort |
| Ordering.OrderedUnique | excel_to_json.py:171 | two orderings of the same songs that are both sorted with ties in sheet order are equal |
| Ordering.SortUnique | excel_to_json.py:171 | any stable sort of the rows (a permutation sorted with ties in sheet order) is exactly the modelled sort |
| Ordering.Group | excel_to_json.py:192 | the (taste, mood) list holds exactly the songs of that pair |
| Ordering.GroupSort | excel_to_json.py:171-192 | taking one (taste, mood) list of the sorted rows equals sorting that list alone |
| Ordering.SortSameGroup | excel_to_json.py:167-171 | without the rank key a (taste, mood) list keeps sheet order |
| Ordering.SortFlagIrrelevant | excel_to_json.py:169-170 | when no row has a rank, adding the rank key changes nothing |
| Ordering.GroupInSheetOrder | excel_to_json.py:171 | a list taken from rows in sheet order is in sheet order |
| Ordering.RankedGroupOrder | excel_to_json.py:167-171 | with the rank key a list has ranked songs first by ascending rank, unranked last, ties in sheet order, and is a permutation |
| Index.AddSong | excel_to_json.py:192 | one append to the nested defaultdict, creating either level on first use |
| Index.IndexSnoc | excel_to_json.py:175-192 | one more song updates the index exactly as the loop body does |
| Index.BuildIndex | excel_to_json.py:173-192 | the loop builds the index of the sorted songs |
| Index.IndexSpec | excel_to_json.py:173-192 | a taste has an entry exactly when some song has it; a mood has a list under it exactly when some song has both; that list is the pair's tracks in order and never empty |
| Catalogue.InitialMusicKeys | excel_to_json.py:110-115 | every new entry starts with the four moods, each with an empty list |
| Catalogue.ReadFoodRow | excel_to_json.py:95-99 | without an option_taste column the option reads as missing; the Present*Read lemmas give each field for a present column |
| Catalogue.LabelACell | excel_to_json.py:86-99 | the cell read under a lower-case key is the one in the column of the last header that lower-cases to the key |
| Catalogue.PresentIdRead | excel_to_json.py:95 | with a food_id header in any capitalisation, the id is that column's trimmed text |
| Catalogue.PresentNameRead | excel_to_json.py:96 | with a food_name header in any capitalisation, the name is that column's trimmed text |
| Catalogue.PresentTasteRead | excel_to_json.py:97 | with a default_taste header in any capitalisation, the taste is that column's cell folded by `norm_taste` |
| Catalogue.PresentOptionRead | excel_to_json.py:99 | with an option_taste header in any capitalisation, the option is that column's cell |
| Catalogue.MissingColumnsRead | excel_to_json.py:95-99 | a sheet-A column no header matches reads as empty: id, name and taste "" and no option |
| Catalogue.NoNameColumn | excel_to_json.py:95-104 | without a food_name column every row is skipped and there are no foods |
| Catalogue.ReadFoodRows | excel_to_json.py:94-99 | every sheet-A row is read, in order |
| Catalogue.AddRow | excel_to_json.py:101-121 | one iteration of the loop: skip a blank name, create an entry on first sight, append a non-blank option |
| Catalogue.AddRows | excel_to_json.py:94-121 | the loop over the read rows builds the catalogue of those rows |
| Catalogue.BuildCatalogue | excel_to_json.py:93-121 | the catalogue of sheet A's rows read under its labels |
| Catalogue.FirstRow | excel_to_json.py:104-117 | the first row carrying a name, or the row count when none does |
| Catalogue.CatalogueNames | excel_to_json.py:101-117 | names are listed once each and are exactly the keys, which are the non-empty names of the rows |
| Catalogue.CatalogueFirstRows | excel_to_json.py:104-117 | each entry's id and default taste are those of its name's first row |
| Catalogue.CatalogueOrder | excel_to_json.py:93-117 | names are listed in order of first appearance |
| Catalogue.CatalogueOptions | excel_to_json.py:119-121 | each entry's options are the folded non-blank option tastes of all its rows, in row order; music is still the four empty lists |
| Catalogue.OptionsFromRows | excel_to_json.py:119-121 | options are only ever collected for a name that has rows |
| Catalogue.BlankNameIsNan | excel_to_json.py:95-102 | an empty name cell reads as "nan", so such a row is not skipped |
| Catalogue.CopyLists | excel_to_json.py:199-200 | the inner loop overwrites or adds one list per mood of the index |
| Catalogue.AssignMusic | excel_to_json.py:195-200 | every entry gets the lists of its default taste; nothing else changes |
| Catalogue.MusicSpec | excel_to_json.py:194-200 | after assignment a mood has a list exactly when it is one of the four or the index has it for the taste; the index's list when it has one, otherwise empty |
| Catalogue.MusicIgnoresOptions | excel_to_json.py:202-203 | the music depends on the default taste only, never on the options |
| Pipeline.Convert | excel_to_json.py:78-200 | the conversion as written computes the document |
| Pipeline.DocumentFails | excel_to_json.py:127-135 | the conversion fails exactly when one of the four required sheet-B fields has no column, and reports the candidate list of the first such field in the order taste, mood, title, uri |
| Pipeline.LabelsStrippedOnce | excel_to_json.py:124-125 | sheet B's labels are in effect stripped once |
| Pipeline.MusicKeepsEntries | excel_to_json.py:195-200 | assigning music keeps every entry's id, taste and options |
| Pipeline.DocumentEntries | excel_to_json.py:93-117 | one entry per distinct non-empty food name, each listed once, in order of first appearance |
| Pipeline.DocumentFirstRows | excel_to_json.py:104-121 | each entry has its first row's id and taste and the options of all its rows |
| Pipeline.IndexedList | excel_to_json.py:171-192 | the index's list for a pair is that pair's songs, sorted |
| Pipeline.IndexedPair | excel_to_json.py:173-192 | a pair has a list exactly when some surviving song has it |
| Pipeline.DocumentMusic | excel_to_json.py:194-200 | a mood has a list exactly when it is one of the four or some surviving song pairs it with the entry's taste; the list is that pair's songs in sorted order |
| Pipeline.UnrankedListInSheetOrder | excel_to_json.py:167-171 | a list none of whose songs has a rank keeps sheet order even when other lists use the rank key |
| Pipeline.RankedList | excel_to_json.py:167-171 | a list sorted with the rank key is a permutation of its songs, ranked first by ascending rank, ties in sheet order |
| Pipeline.TracksFromRows | excel_to_json.py:137-192 | every track of the document comes from one sheet-B row with the four required fields non-empty and the entry's taste and the list's mood |
| Labels.TranslateTaste | script.js:54-57 | a string without a word is returned unchanged |
| Labels.DisplayMood | script.js:147-150 | a string without a word is returned unchanged |
| Labels.TasteLabelsCover | script.js:55 | the five canonical tastes and "umami" have words |
| Labels.MoodLabelsCover | script.js:148 | exactly the four canonical moods have words |
| Labels.TranslateWords | script.js:55 | the word shown for each of the six taste codes |
| Labels.DisplayWords | script.js:148 | the word shown for each of the four mood codes |
| LabelWords.TranslateRoundTrip | script.js:54-57 | each canonical taste gets a different word, which the converter folds back to that taste |
| LabelWords.UmamiOneWay | script.js:55 | "umami" has a word the converter does not fold back |
| LabelWords.DisplayRoundTrip | script.js:147-150 | each canonical mood gets a different word, which the converter folds back to that mood |
| Player.Playable | script.js:65 | the filter never lengthens the list |
| Player.PlayableMembers | script.js:65 | a track is kept exactly when it is in the list and its uri is non-empty after `trim` |
| Player.PlayableAppend | script.js:65 | the filter keeps order |
| Player.PlayableAll | script.js:65 | a list whose every uri is non-blank is returned whole |
| Player.GetTracksFor | script.js:60-66 | nothing for an unknown food or a mood without a list, otherwise the mood's playable tracks |
| Player.ByteOrderMarkUri | script.js:65 | a uri of one U+FEFF survives the converter's strip but not the player's trim |
| Player.DroppedUriIsByteOrderMark | script.js:65 | a non-empty converted uri that the player drops starts and ends with U+FEFF |
| Player.FirstLeastRankUnique | script.js:73-76 | at most one track is the earliest of least rank |
| Player.LeastRank | script.js:73-77 | the rank branch returns the earliest track of least rank |
| Player.TotalWeight | script.js:80-81 | the sum of all weights |
| Player.LandsUnique | script.js:83-86 | the walk stops at one position |
| Player.WeightedWalk | script.js:82-86 | the walk stops at the first track whose running total reaches the target, or the last track |
| Player.CumulativeMonotone | script.js:80-81 | with non-negative weights the running total never decreases |
| Player.LandsWindow | script.js:82-86 | with non-negative weights and a target below the total, the walk stops at a track exactly when the target falls in its window |
| Player.ZeroWeightSkipped | script.js:83-84 | a track of weight zero, not first or last, is never picked |
| Player.ChosenUnique | script.js:69-87 | one position is chosen for each draw |
| Player.WeightedChoice | script.js:79-86 | without ranks a track is chosen exactly when draw times the total falls in its window, so its chance is its share of the weight |
| Player.PickOneTrack | script.js:69-87 | nothing exactly for an empty list; otherwise the chosen track, always one of the list |
| Player.IsLocalAudioSlices | script.js:94-96 | local audio exactly when the uri starts with "audio/" or ends with one of the four extensions |

## Left out

- Reading the workbook, the warnings for missing sheet-A columns, the
  messages and writing the JSON file: I/O. The document is returned as a
  value; the key order of each `music` object (four moods first, then any
  other mood in index order) is not modelled.
- `allow_choice` (excel_to_json.py:98) is read but never used; it is not
  modelled.
- Cells hold text, integers or booleans. Floating-point cells, the
  `int(rank)` truncation of a fractional rank and pandas' decimal parsing
  are not modelled: ranks are integers and weights are reals.
- Lower-casing maps ASCII letters only; Unicode case mapping is not
  modelled. White space is Python's `isspace` set and ECMAScript's
  WhiteSpace and LineTerminator set, listed character by character.
- Two columns whose labels coincide only after the strips of
  excel_to_json.py:80-81 and :125 (say "taste" and "taste ", which pandas
  does not rename) are not modelled faithfully; the model reads the first
  column with that label. In sheet B the converter's `b[c_taste]` then
  selects both columns and the helper-column assignment at
  excel_to_json.py:137-140 fails. In sheet A (say "food_name" and
  "food_name ") `r.get` at excel_to_json.py:95-99 returns both values, and
  the food name becomes the printed text of that pair.
- Header labels are text. A blank header cell reaches the converter as
  the text "Unnamed: N", which string labels cover, but a number as a label
  makes the converter fail: `.str` raises at excel_to_json.py:80-81 when
  every label is a number, and otherwise the number becomes NaN there and
  the lower-casing at :86 (sheet A) or the strip at :125 (sheet B) fails.
  The model's labels are strings, so that failure is not modelled.
- Player.PickOneTrack: `Math.random()` is the parameter `draw` and weights
  are exact reals, so float rounding in the sum and in the walk is not
  modelled; the `withRank.sort(...)[0]` of script.js:75-76 is modelled as a
  scan for the earliest track of least rank, which is what the stable sort
  puts first.
- Player.GetTracksFor: JavaScript's prototype lookups (a food or mood named
  like an `Object.prototype` property such as "constructor" or
  "__proto__") are not modelled. `null` tracks and tracks without a uri
  field cannot occur in a document the converter writes and are not
  modelled either; every track has a weight, so the `1.0` fallback of
  script.js:80 never applies.
- Labels.TranslateTaste, Labels.DisplayMood: `map[taste] || taste` also
  finds names inherited from `Object.prototype`. "constructor" and
  "__proto__" survive the converter's lower-casing, so an option taste cell
  "Constructor" reaches `translateTaste` as "constructor" and the player
  shows the text of the `Object` function; the model returns the name
  itself for every name outside the table.
- Labels.TranslateTaste, Labels.DisplayMood: their own contracts state only
  the pass-through of an unknown string; the word returned for each known
  code is stated by Labels.TranslateWords and Labels.DisplayWords rather
  than repeated on the functions.
- The DOM, `fetch`, `alert`, `playTrack`'s audio element and
  `window.open`: only the local-audio test of script.js:94-96 is modelled.
- The lists the converter copies into `music` are shared between foods of
  the same taste in Python; the model copies values, so aliasing is not
  modelled (nothing mutates them afterwards).
