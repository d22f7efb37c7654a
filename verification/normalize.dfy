/**
 * Vocabulary folding (`norm_taste`, `norm_mood`) and boolean coercion
 * (`to_bool_or_none`) from excel_to_json.py.
 */
module Normalize {
  import opened Wrappers
  import opened Strings
  import opened Cells
  import opened Vocabulary

  /** `str(x).strip()`. */
  function Token(c: Cell): string {
    Strip(Python, Str(c))
  }

  /** A folding table in which neither a key nor a value is the empty word. */
  predicate NoBlankWords(vocab: map<string, string>) {
    "" !in vocab && "" !in vocab.Values
  }

  /**
   * `vocab.get(s, s.lower())` on the trimmed text `s`: a word of the table
   * folds to its canonical token, any other word to its lower-cased form.
   * Only the blank word folds to "": nothing is rejected.
   */
  function Fold(vocab: map<string, string>, s: string): (r: string)
    requires NoBlankWords(vocab)
    ensures r == "" <==> s == ""
    ensures s in vocab ==> r == vocab[s] && r in vocab.Values
    ensures s !in vocab ==> r == Lower(s)
  {
    if s in vocab then vocab[s] else Lower(s)
  }

  lemma TasteVocabulary()
    ensures NoBlankWords(TasteMap) && TasteMap.Values <= Tastes
  {
  }

  lemma MoodVocabulary()
    ensures NoBlankWords(MoodMap) && MoodMap.Values <= Moods
  {
  }

  /** The trimmed text of a word is the word itself. */
  lemma TokenOfWord(s: string)
    requires Word(s)
    ensures Token(Text(s)) == s
  {
    WordCharNotSpace(s[0]);
    WordCharNotSpace(s[|s| - 1]);
    StripFixed(Python, s);
  }

  /** `norm_taste`: a canonical taste, the lower-cased text, or "" for a missing or blank cell. */
  function NormTaste(c: Cell): (r: string)
    ensures r == "" <==> c.Missing? || Token(c) == ""
    ensures !c.Missing? && Token(c) in TasteMap ==> r == TasteMap[Token(c)] && r in Tastes
    ensures !c.Missing? && Token(c) !in TasteMap ==> r == Lower(Token(c))
  {
    if c.Missing? then "" else TasteVocabulary(); Fold(TasteMap, Token(c))
  }

  /** `norm_mood`: a canonical mood, the lower-cased text, or "" for a missing or blank cell. */
  function NormMood(c: Cell): (r: string)
    ensures r == "" <==> c.Missing? || Token(c) == ""
    ensures !c.Missing? && Token(c) in MoodMap ==> r == MoodMap[Token(c)] && r in Moods
    ensures !c.Missing? && Token(c) !in MoodMap ==> r == Lower(Token(c))
  {
    if c.Missing? then "" else MoodVocabulary(); Fold(MoodMap, Token(c))
  }

  /** Every spelling in the taste table, with any white space around it, folds to its canonical token. */
  lemma TasteSpelling(k: string, pre: string, post: string)
    requires k in TasteMap && AllSpace(Python, pre) && AllSpace(Python, post)
    ensures NormTaste(Text(pre + k + post)) == TasteMap[k] && TasteMap[k] in Tastes
  {
    TasteVocabulary();
    TasteWords();
    WordCharNotSpace(k[0]);
    WordCharNotSpace(k[|k| - 1]);
    StripPadded(Python, pre, k, post);
  }

  /** Every spelling in the mood table, with any white space around it, folds to its canonical token. */
  lemma MoodSpelling(k: string, pre: string, post: string)
    requires k in MoodMap && AllSpace(Python, pre) && AllSpace(Python, post)
    ensures NormMood(Text(pre + k + post)) == MoodMap[k] && MoodMap[k] in Moods
  {
    MoodVocabulary();
    MoodWords();
    WordCharNotSpace(k[0]);
    WordCharNotSpace(k[|k| - 1]);
    StripPadded(Python, pre, k, post);
  }

  /** A canonical taste folds to itself. */
  lemma TasteCanonical(t: string)
    requires t in Tastes
    ensures NormTaste(Text(t)) == t
  {
    TasteVocabulary();
    assert t in TasteMap && TasteMap[t] == t;
    TasteWords();
    TokenOfWord(t);
  }

  /** A canonical mood folds to itself. */
  lemma MoodCanonical(m: string)
    requires m in Moods
    ensures NormMood(Text(m)) == m
  {
    MoodVocabulary();
    assert m in MoodMap && MoodMap[m] == m;
    MoodWords();
    TokenOfWord(m);
  }

  /** The token lookup of `to_bool_or_none`: the true set first, then the false set. */
  function TokenToBool(s: string): (r: Option<bool>)
    ensures r == Some(true) <==> s in TrueTokens
    ensures r == Some(false) <==> s in FalseTokens
  {
    if s in TrueTokens then Some(true)
    else if s in FalseTokens then Some(false)
    else None
  }

  /**
   * `to_bool_or_none`: missing gives None, a boolean passes through, and any
   * other value is trimmed and lower-cased and looked up in the true-token
   * and false-token sets; a token in neither gives None.
   */
  function ToBoolOrNone(c: Cell): (r: Option<bool>)
    ensures c.Missing? ==> r == None
    ensures c.Bool? ==> r == Some(c.b)
    ensures !c.Missing? && !c.Bool? ==> (r == Some(true) <==> Lower(Token(c)) in TrueTokens)
    ensures !c.Missing? && !c.Bool? ==> (r == Some(false) <==> Lower(Token(c)) in FalseTokens)
  {
    if c.Missing? then None
    else if c.Bool? then Some(c.b)
    else TokenToBool(Lower(Token(c)))
  }

  /** No token is both true and false, so the coercion is well defined. */
  lemma TokensDisjoint()
    ensures TrueTokens * FalseTokens == {}
  {
  }
}
