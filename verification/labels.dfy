/**
 * The display words of the browser player (script.js:54-57, 147-150):
 * Japanese names for the taste and mood codes, and how they relate to the
 * spellings the converter folds.
 */
module Labels {
  import opened Strings
  import opened Cells
  import opened Vocabulary
  import opened Normalize

  /** The word table of `translateTaste` (script.js:55); it also knows "umami", which the converter does not. */
  const TasteLabels: map<string, string> :=
    map["sweet" := "甘味", "sour" := "酸味", "bitter" := "苦味", "salty" := "塩味", "spicy" := "辛味", "umami" := "旨味"]

  /** The word table of `displayMood` (script.js:148). */
  const MoodLabels: map<string, string> :=
    map["relaxation" := "リラックス", "excitement" := "元気", "focus" := "集中", "calm" := "落ち着き"]

  /** `translateTaste`: the Japanese word of a taste code, any other string unchanged. */
  function TranslateTaste(taste: string): (r: string)
    ensures taste !in TasteLabels ==> r == taste
  {
    if taste in TasteLabels then TasteLabels[taste] else taste
  }

  /** `displayMood`: the Japanese word of a mood code, any other string unchanged. */
  function DisplayMood(mood: string): (r: string)
    ensures mood !in MoodLabels ==> r == mood
  {
    if mood in MoodLabels then MoodLabels[mood] else mood
  }

  /** The player labels every canonical taste the converter emits, and "umami" besides. */
  lemma TasteLabelsCover()
    ensures TasteLabels.Keys == Tastes + {"umami"}
  {
  }

  /** The player labels exactly the canonical moods. */
  lemma MoodLabelsCover()
    ensures MoodLabels.Keys == Moods
  {
  }

  /** The word `translateTaste` shows for each code it knows. */
  lemma TranslateWords()
    ensures TranslateTaste("sweet") == "甘味" && TranslateTaste("sour") == "酸味"
    ensures TranslateTaste("bitter") == "苦味" && TranslateTaste("salty") == "塩味"
    ensures TranslateTaste("spicy") == "辛味" && TranslateTaste("umami") == "旨味"
  {
  }

  /** The word `displayMood` shows for each code it knows. */
  lemma DisplayWords()
    ensures DisplayMood("relaxation") == "リラックス" && DisplayMood("excitement") == "元気"
    ensures DisplayMood("focus") == "集中" && DisplayMood("calm") == "落ち着き"
  {
  }
}
