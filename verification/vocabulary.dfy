/**
 * The fixed vocabularies of excel_to_json.py: the taste and mood folding
 * tables and the boolean token sets, with the facts about their spelling
 * that the normaliser relies on.
 */
module Vocabulary {
  import opened Strings

  /** `TASTE_MAP`: Japanese and English spellings of the five tastes. */
  const TasteMap: map<string, string> := map[
    "甘味" := "sweet", "あまい" := "sweet", "sweet" := "sweet",
    "酸味" := "sour", "すっぱい" := "sour", "sour" := "sour",
    "苦味" := "bitter", "にがい" := "bitter", "bitter" := "bitter",
    "塩味" := "salty", "しょっぱい" := "salty", "salty" := "salty",
    "辛味" := "spicy", "からい" := "spicy", "spicy" := "spicy"
  ]

  /** `MOOD_MAP`: Japanese and romanised spellings of the four moods. */
  const MoodMap: map<string, string> := map[
    "リラックス" := "relaxation", "relax" := "relaxation", "relaxation" := "relaxation",
    "元気" := "excitement", "genki" := "excitement", "excitement" := "excitement",
    "集中" := "focus", "shuchu" := "focus", "focus" := "focus",
    "落ち着き" := "calm", "ochitsuki" := "calm", "calm" := "calm"
  ]

  /** The canonical taste tokens. */
  const Tastes: set<string> := {"sweet", "sour", "bitter", "salty", "spicy"}

  /** The canonical mood tokens, which are also the keys of every food's `music`. */
  const Moods: set<string> := {"relaxation", "excitement", "focus", "calm"}

  /** The spellings the taste table recognises. */
  const TasteSpellings: set<string> := {"甘味", "あまい", "sweet", "酸味", "すっぱい", "sour", "苦味", "にがい", "bitter", "塩味", "しょっぱい", "salty", "辛味", "からい", "spicy"}

  /** The spellings the mood table recognises. */
  const MoodSpellings: set<string> := {"リラックス", "relax", "relaxation", "元気", "genki", "excitement", "集中", "shuchu", "focus", "落ち着き", "ochitsuki", "calm"}

  const TrueTokens: set<string> := {"true", "1", "t", "yes", "y", "はい", "有", "インスト", "instrumental"}
  const FalseTokens: set<string> := {"false", "0", "f", "no", "n", "いいえ", "無", "歌詞あり", "vocal"}

  /** A lower-case ASCII letter or a kana or CJK ideograph: the letters the tables are spelled with. */
  predicate WordChar(c: char) {
    ('a' <= c <= 'z') || ('\U{3040}' <= c <= '\U{9FFF}')
  }

  lemma WordCharNotSpace(c: char)
    requires WordChar(c)
    ensures !IsSpace(Python, c)
  {
  }

  /** A word that begins and ends with a letter, so it has no white space at either end. */
  predicate Word(k: string) {
    k != [] && WordChar(k[0]) && WordChar(k[|k| - 1])
  }

  lemma TasteKeys()
    ensures TasteMap.Keys == TasteSpellings
  {
  }

  lemma MoodKeys()
    ensures MoodMap.Keys == MoodSpellings
  {
  }

  lemma TasteSpellingsAreWords()
    ensures forall k | k in TasteSpellings :: Word(k)
  {
    assert Word("甘味") && Word("あまい") && Word("sweet");
    assert Word("酸味") && Word("すっぱい") && Word("sour");
    assert Word("苦味") && Word("にがい") && Word("bitter");
    assert Word("塩味") && Word("しょっぱい") && Word("salty");
    assert Word("辛味") && Word("からい") && Word("spicy");
  }

  /** Every spelling in the taste table is a word. */
  lemma TasteWords()
    ensures forall k | k in TasteMap :: Word(k)
  {
    TasteKeys();
    TasteSpellingsAreWords();
  }

  lemma MoodSpellingsAreWords()
    ensures forall k | k in MoodSpellings :: Word(k)
  {
    assert Word("リラックス") && Word("relax") && Word("relaxation");
    assert Word("元気") && Word("genki") && Word("excitement");
    assert Word("集中") && Word("shuchu") && Word("focus");
    assert Word("落ち着き") && Word("ochitsuki") && Word("calm");
  }

  /** Every spelling in the mood table is a word. */
  lemma MoodWords()
    ensures forall k | k in MoodMap :: Word(k)
  {
    MoodKeys();
    MoodSpellingsAreWords();
  }
}
