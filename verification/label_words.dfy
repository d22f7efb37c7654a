/**
 * The words the browser player shows for the canonical tastes and moods
 * are spellings that the converter folds back to the same codes: a sheet
 * filled in with the player's own words converts to what the player
 * expects. "umami" is the exception.
 */
module LabelWords {
  import opened Strings
  import opened Cells
  import opened Vocabulary
  import opened Normalize
  import opened Labels

  /** Each canonical taste's word is a different word, and a spelling of the taste table for that taste. */
  lemma TasteWordsInTable(t: string)
    requires t in Tastes
    ensures Word(TasteLabels[t]) && TasteLabels[t] != t
    ensures TasteLabels[t] in TasteMap && TasteMap[TasteLabels[t]] == t
  {
  }

  /** Each canonical mood's word is a different word, and a spelling of the mood table for that mood. */
  lemma MoodWordsInTable(m: string)
    requires m in Moods
    ensures Word(MoodLabels[m]) && MoodLabels[m] != m
    ensures MoodLabels[m] in MoodMap && MoodMap[MoodLabels[m]] == m
  {
  }

  lemma TasteLookup(word: string, t: string)
    requires word in TasteMap && TasteMap[word] == t
    ensures Fold(TasteMap, word) == t
  {
    TasteVocabulary();
  }

  lemma MoodLookup(word: string, m: string)
    requires word in MoodMap && MoodMap[word] == m
    ensures Fold(MoodMap, word) == m
  {
    MoodVocabulary();
  }

  /** A word of the taste table, with no white space around it, folds to its token. */
  lemma TasteWordFolds(word: string, t: string)
    requires Word(word) && word in TasteMap && TasteMap[word] == t
    ensures NormTaste(Text(word)) == t
  {
    TokenOfWord(word);
    TasteLookup(word, t);
  }

  /** A word of the mood table, with no white space around it, folds to its token. */
  lemma MoodWordFolds(word: string, m: string)
    requires Word(word) && word in MoodMap && MoodMap[word] == m
    ensures NormMood(Text(word)) == m
  {
    TokenOfWord(word);
    MoodLookup(word, m);
  }

  /** The word of a canonical taste is a spelling the converter folds back to that taste. */
  lemma TranslateRoundTrip(t: string)
    requires t in Tastes
    ensures TranslateTaste(t) != t
    ensures NormTaste(Text(TranslateTaste(t))) == t
  {
    TasteWordsInTable(t);
    TasteWordFolds(TasteLabels[t], t);
  }

  /** "umami" has a word, but the converter does not know that word: it passes through as itself. */
  lemma UmamiOneWay()
    ensures TranslateTaste("umami") == "旨味"
    ensures NormTaste(Text("旨味")) == "旨味"
  {
    assert "旨味" !in TasteMap;
    TokenOfWord("旨味");
    assert Lower("旨味") == "旨味";
  }

  /** The word of a canonical mood is a spelling the converter folds back to that mood. */
  lemma DisplayRoundTrip(m: string)
    requires m in Moods
    ensures DisplayMood(m) != m
    ensures NormMood(Text(DisplayMood(m))) == m
  {
    MoodWordsInTable(m);
    MoodWordFolds(MoodLabels[m], m);
  }
}
