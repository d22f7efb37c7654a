/**
 * Worked examples of the cell normalisation of excel_to_json.py: synonyms,
 * pass-through of unknown words, and the boolean coercion of numbers and
 * padded text.
 */
module NormalizeExamples {
  import opened Wrappers
  import opened Strings
  import opened Cells
  import opened Vocabulary
  import opened Normalize

  lemma SweetKana()
    ensures NormTaste(Text("あまい")) == "sweet"
  {
    TasteSpelling("あまい", "", "");
    assert "" + "あまい" + "" == "あまい";
  }

  lemma SweetLatin()
    ensures NormTaste(Text("sweet")) == "sweet"
  {
    TasteCanonical("sweet");
  }

  /** "あまい" and "sweet" fold to the same token. */
  lemma SweetSynonyms()
    ensures NormTaste(Text("あまい")) == NormTaste(Text("sweet"))
  {
    SweetKana();
    SweetLatin();
  }

  lemma FooToken()
    ensures Token(Text(" Foo ")) == "Foo"
  {
    assert " Foo " == " " + "Foo" + " ";
    StripPadded(Python, " ", "Foo", " ");
  }

  lemma FooFold()
    ensures Fold(TasteMap, "Foo") == "foo"
  {
    TasteVocabulary();
    assert "Foo" !in TasteMap;
    assert Lower("Foo") == "foo";
  }

  /** An unknown word passes through trimmed and lower-cased. */
  lemma UnknownTaste()
    ensures NormTaste(Text(" Foo ")) == "foo"
  {
    FooToken();
    FooFold();
  }

  lemma RelaxFold()
    ensures Fold(MoodMap, "Relax") == "relax"
  {
    MoodVocabulary();
    assert "Relax" !in MoodMap;
    assert Lower("Relax") == "relax";
  }

  /** "Relax" is not in the mood table, so it only folds to "relax" ... */
  lemma RelaxCapitalised()
    ensures NormMood(Text("Relax")) == "relax"
  {
    StripFixed(Python, "Relax");
    RelaxFold();
  }

  /** ... whereas "relax" itself folds to "relaxation". */
  lemma RelaxLower()
    ensures NormMood(Text("relax")) == "relaxation"
  {
    MoodSpelling("relax", "", "");
    assert "" + "relax" + "" == "relax";
  }

  /**
   * The fold is not idempotent: "Relax" folds only to "relax", which is
   * not a canonical mood, and folding that again gives "relaxation".
   */
  lemma RelaxNotCanonical()
    ensures NormMood(Text("Relax")) == "relax" && "relax" !in Moods
    ensures NormMood(Text(NormMood(Text("Relax")))) == "relaxation"
  {
    RelaxMissesMoods();
    RelaxTwice();
  }

  lemma RelaxMissesMoods()
    ensures NormMood(Text("Relax")) == "relax" && "relax" !in Moods
  {
    RelaxCapitalised();
  }

  lemma RelaxTwice()
    ensures NormMood(Text(NormMood(Text("Relax")))) == "relaxation"
  {
    RelaxCapitalised();
    RelaxAgain(NormMood(Text("Relax")));
  }

  lemma RelaxAgain(once: string)
    requires once == "relax"
    ensures NormMood(Text(once)) == "relaxation"
  {
    RelaxLower();
  }

  /** An empty token is neither true nor false. */
  lemma BlankIsNeither()
    ensures ToBoolOrNone(Text("")) == None
  {
    assert Token(Text("")) == "" && Lower("") == "";
  }

  /** The numbers 1 and 0 print as "1" and "0" and coerce to true and false. */
  lemma NumbersCoerce()
    ensures ToBoolOrNone(Num(1)) == Some(true)
    ensures ToBoolOrNone(Num(0)) == Some(false)
  {
    assert Str(Num(1)) == "1" && Str(Num(0)) == "0";
    StripFixed(Python, "1");
    StripFixed(Python, "0");
    assert Lower("1") == "1" && Lower("0") == "0";
  }

  lemma YesToken()
    ensures Token(Text(" YES ")) == "YES"
  {
    assert " YES " == " " + "YES" + " ";
    StripPadded(Python, " ", "YES", " ");
  }

  lemma YesLower()
    ensures Lower("YES") == "yes"
  {
  }

  /** Case and surrounding white space do not matter. */
  lemma PaddedYes()
    ensures ToBoolOrNone(Text(" YES ")) == Some(true)
  {
    YesToken();
    YesLower();
    assert TokenToBool("yes") == Some(true);
  }
}
