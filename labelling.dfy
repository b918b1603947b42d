/**
 * The training data of train_model.py: the corpus is the CSV's REQUEST_TYPE
 * column with missing cells dropped, or a fixed five-row fallback when the
 * CSV file does not exist; each text is labelled 1 when it contains "Water",
 * "Leak" or "Pipe" in any letter case, as a plain substring, else 0.
 */
module Labelling {
  import opened Wrappers

  /** The alternatives of the pattern, written with the lower-case letters they are compared as. */
  const Keywords: seq<string> := ["water", "leak", "pipe"]

  /** Every character of kw is a lower-case ASCII letter. */
  predicate LowerAsciiWord(kw: string)
  {
    forall j :: 0 <= j < |kw| ==> 'a' <= kw[j] <= 'z'
  }

  /**
   * Whether text character c matches pattern letter x, where x is a
   * lower-case ASCII letter, under Python's case-insensitive regular
   * expressions: c is x, or x's upper-case form, or a character whose simple
   * lower-case mapping is x (U+212A KELVIN SIGN for 'k', U+0130 for 'i'), or
   * the dotless U+0131 that the matcher also treats as 'i'.
   */
  predicate CharMatches(c: char, x: char): (m: bool)
    ensures 'a' <= x <= 'z' ==> (m <==> Fold(c) == x)
  {
    || c == x
    || ('a' <= x <= 'z' && c as int == x as int - 32)
    || (x == 'k' && c == '\U{212A}')
    || (x == 'i' && (c == '\U{130}' || c == '\U{131}'))
  }

  /** The keyword matches the text at index i, letter by letter. */
  predicate MatchesAt(text: string, i: nat, kw: string)
    requires i + |kw| <= |text|
  {
    forall j :: 0 <= j < |kw| ==> CharMatches(text[i + j], kw[j])
  }

  /** The regular-expression search for one alternative: try each start position from the left. */
  function Search(text: string, kw: string): (found: bool)
    ensures found ==> |kw| <= |text|
    ensures |kw| <= |text| && MatchesAt(text, 0, kw) ==> found
    decreases |text|
  {
    |kw| <= |text| && (MatchesAt(text, 0, kw) || Search(text[1..], kw))
  }

  /**
   * The label of one cell of the REQUEST_TYPE column: 0 for a missing cell
   * (na=False), otherwise 1 when one of the keywords occurs and 0 when none does.
   */
  function Label(cell: Option<string>): (y: int)
    ensures y == 0 || y == 1
    ensures cell.None? ==> y == 0
  {
    match cell
    case None => 0
    case Some(text) => if Search(text, "water") || Search(text, "leak") || Search(text, "pipe") then 1 else 0
  }

  // ---------------------------------------------------------------------------
  // Reference definition: fold the case of the whole text, then look for a
  // keyword as a plain substring.
  // ---------------------------------------------------------------------------

  /**
   * The lower-case letter a character is compared as: ASCII capitals, U+212A,
   * U+0130 and U+0131 are folded; every other character is left as it is.
   */
  function Fold(c: char): char
  {
    if 'A' <= c <= 'Z' then (c as int + 32) as char
    else if c == '\U{212A}' then 'k'
    else if c == '\U{130}' || c == '\U{131}' then 'i'
    else c
  }

  function FoldAll(text: string): (f: string)
    ensures |f| == |text|
    ensures forall k :: 0 <= k < |text| ==> f[k] == Fold(text[k])
  {
    seq(|text|, k requires 0 <= k < |text| => Fold(text[k]))
  }

  /** kw is the slice of s that starts at index i. */
  ghost predicate OccursAt(kw: string, s: string, i: int)
  {
    0 <= i && i + |kw| <= |s| && s[i..i + |kw|] == kw
  }

  ghost predicate IsSubstring(kw: string, s: string)
  {
    exists i :: OccursAt(kw, s, i)
  }

  /** The case-folded text contains one of the keywords. */
  ghost predicate HasKeyword(text: string)
  {
    exists kw :: kw in Keywords && IsSubstring(kw, FoldAll(text))
  }

  lemma MatchesAtFolded(text: string, i: nat, kw: string)
    requires i + |kw| <= |text| && LowerAsciiWord(kw)
    ensures MatchesAt(text, i, kw) <==> FoldAll(text)[i..i + |kw|] == kw
  {
    var f := FoldAll(text);
    forall j | 0 <= j < |kw|
      ensures CharMatches(text[i + j], kw[j]) <==> f[i..i + |kw|][j] == kw[j]
    {
      assert CharMatches(text[i + j], kw[j]) <==> Fold(text[i + j]) == kw[j];
    }
  }

  lemma MatchesAtShift(text: string, i: nat, kw: string)
    requires |text| > 0 && i + 1 + |kw| <= |text|
    ensures MatchesAt(text, i + 1, kw) <==> MatchesAt(text[1..], i, kw)
  {
    assert forall k :: i <= k < i + |kw| ==> text[1..][k] == text[k + 1];
  }

  /** The left-to-right scan finds the keyword exactly when it matches at some position. */
  lemma {:induction false} SearchFindsOccurrence(text: string, kw: string)
    ensures Search(text, kw) <==> exists i :: 0 <= i && i + |kw| <= |text| && MatchesAt(text, i, kw)
    decreases |text|
  {
    if |kw| <= |text| {
      if |text| > 0 {
        SearchFindsOccurrence(text[1..], kw);
        if exists i :: 0 <= i && i + |kw| <= |text| && MatchesAt(text, i, kw) {
          var i :| 0 <= i && i + |kw| <= |text| && MatchesAt(text, i, kw);
          if i > 0 {
            MatchesAtShift(text, i - 1, kw);
          }
        }
        if Search(text[1..], kw) {
          var i :| 0 <= i && i + |kw| <= |text| - 1 && MatchesAt(text[1..], i, kw);
          MatchesAtShift(text, i, kw);
        }
      } else {
        assert MatchesAt(text, 0, kw);
      }
    }
  }

  /** The search agrees with the reference: fold the case, then look for the keyword as a substring. */
  lemma SearchIsFoldedSubstring(text: string, kw: string)
    requires LowerAsciiWord(kw)
    ensures Search(text, kw) <==> IsSubstring(kw, FoldAll(text))
  {
    SearchFindsOccurrence(text, kw);
    if Search(text, kw) {
      var i :| 0 <= i && i + |kw| <= |text| && MatchesAt(text, i, kw);
      MatchesAtFolded(text, i, kw);
      assert OccursAt(kw, FoldAll(text), i);
    }
    if IsSubstring(kw, FoldAll(text)) {
      var i :| OccursAt(kw, FoldAll(text), i);
      MatchesAtFolded(text, i, kw);
    }
  }

  /** The label of a text is 1 exactly when its case-folded form contains "water", "leak" or "pipe". */
  lemma LabelSpec(text: string)
    ensures Label(Some(text)) == 1 <==> HasKeyword(text)
    ensures Label(Some(text)) == 0 <==> !HasKeyword(text)
  {
    assert Keywords[0] == "water" && Keywords[1] == "leak" && Keywords[2] == "pipe";
    SearchIsFoldedSubstring(text, "water");
    SearchIsFoldedSubstring(text, "leak");
    SearchIsFoldedSubstring(text, "pipe");
  }

  // ---------------------------------------------------------------------------
  // Letter case
  // ---------------------------------------------------------------------------

  /** ASCII lower-casing, leaving every other character as it is. */
  function AsciiLower(c: char): char
  {
    if 'A' <= c <= 'Z' then (c as int + 32) as char else c
  }

  function AsciiLowerAll(text: string): (l: string)
    ensures |l| == |text|
    ensures forall k :: 0 <= k < |text| ==> l[k] == AsciiLower(text[k])
  {
    seq(|text|, k requires 0 <= k < |text| => AsciiLower(text[k]))
  }

  /** The text has none of the three non-ASCII characters that the case-insensitive matching folds. */
  predicate NoFoldedNonAscii(text: string)
  {
    '\U{212A}' !in text && '\U{130}' !in text && '\U{131}' !in text
  }

  /**
   * For text without U+212A, U+0130 and U+0131 the label is plain ASCII
   * lower-casing followed by substring search for "water", "leak" or "pipe".
   */
  lemma LabelIsAsciiLowerSubstring(text: string)
    requires NoFoldedNonAscii(text)
    ensures Label(Some(text)) == 1 <==>
      exists kw :: kw in Keywords && IsSubstring(kw, AsciiLowerAll(text))
  {
    assert forall k :: 0 <= k < |text| ==> text[k] in text;
    assert FoldAll(text) == AsciiLowerAll(text);
    LabelSpec(text);
  }

  /** The ASCII letter of the other case; every other character is left as it is. */
  function SwapCase(c: char): char
  {
    if 'A' <= c <= 'Z' then (c as int + 32) as char
    else if 'a' <= c <= 'z' then (c as int - 32) as char
    else c
  }

  /** t is s with the letter case of any of its ASCII letters changed. */
  predicate CaseVariant(s: string, t: string)
  {
    |s| == |t| && forall k :: 0 <= k < |s| ==> t[k] == s[k] || t[k] == SwapCase(s[k])
  }

  /** Changing the letter case of a text never changes its label. */
  lemma LabelIgnoresCase(s: string, t: string)
    requires CaseVariant(s, t)
    ensures Label(Some(s)) == Label(Some(t))
  {
    assert FoldAll(s) == FoldAll(t);
    LabelSpec(s);
    LabelSpec(t);
  }

  // ---------------------------------------------------------------------------
  // Matching is by substring, not by whole word
  // ---------------------------------------------------------------------------

  lemma SubstringExamples()
    ensures Label(Some("Pipeline")) == 1
    ensures Label(Some("Waterfall")) == 1
    ensures Label(Some("LEAKING tap")) == 1
    ensures Label(Some("LEA\U{212A}")) == 1
  {
    assert MatchesAt("Pipeline", 0, "pipe");
    assert Search("Pipeline", "pipe");
    assert MatchesAt("Waterfall", 0, "water");
    assert Search("Waterfall", "water");
    assert MatchesAt("LEAKING tap", 0, "leak");
    assert Search("LEAKING tap", "leak");
    assert MatchesAt("LEA\U{212A}", 0, "leak");
    assert Search("LEA\U{212A}", "leak");
  }

  /**
   * The keyword is not found when every position whose character matches its
   * first letter is listed in offsets, with an offset at which the keyword
   * and the text differ.
   */
  lemma NoMatchAtCandidates(text: string, kw: string, offsets: map<int, int>)
    requires |kw| > 0
    requires forall i :: 0 <= i < |text| && CharMatches(text[i], kw[0]) ==> i in offsets
    requires forall i :: i in offsets && 0 <= i && i + |kw| <= |text| ==>
      0 <= offsets[i] < |kw| && !CharMatches(text[i + offsets[i]], kw[offsets[i]])
    ensures !Search(text, kw)
  {
    SearchFindsOccurrence(text, kw);
    forall i | 0 <= i && i + |kw| <= |text|
      ensures !MatchesAt(text, i, kw)
    {
      if CharMatches(text[i + 0], kw[0]) {
        assert !CharMatches(text[i + offsets[i]], kw[offsets[i]]);
      }
    }
  }

  // ---------------------------------------------------------------------------
  // Corpus and training set
  // ---------------------------------------------------------------------------

  /** The rows used when the CSV file does not exist. */
  const FallbackCorpus: seq<string> := [
    "Water leak reported on Elm Street",
    "Broken streetlight at 5th Ave",
    "Pipe burst causing flooding in basement",
    "Garbage not collected for 2 weeks",
    "Sewer smell and clogged drain near park"
  ]

  /** The present cells of the column, in their order: dropna() on the one-column frame. */
  function DropNa(column: seq<Option<string>>): (texts: seq<string>)
    ensures |texts| <= |column|
    ensures |texts| == |column| <==> None !in column
    ensures forall t :: t in texts <==> Some(t) in column
  {
    if column == [] then []
    else
      var rest := DropNa(column[1..]);
      assert forall c :: c in column <==> c == column[0] || c in column[1..];
      match column[0]
      case None => rest
      case Some(t) => [t] + rest
  }

  /** dropna keeps the order of the rows: dropping from a concatenation concatenates the results. */
  lemma {:induction false} DropNaAppend(a: seq<Option<string>>, b: seq<Option<string>>)
    ensures DropNa(a + b) == DropNa(a) + DropNa(b)
    decreases |a|
  {
    if a == [] {
      assert a + b == b;
    } else {
      assert (a + b)[0] == a[0] && (a + b)[1..] == a[1..] + b;
      DropNaAppend(a[1..], b);
    }
  }

  /** The texts trained on: the CSV column without its missing cells when the file exists, else the fallback. */
  function Corpus(csvExists: bool, csvColumn: seq<Option<string>>): (texts: seq<string>)
    ensures !csvExists ==> texts == FallbackCorpus
    ensures csvExists ==> texts == DropNa(csvColumn)
  {
    if csvExists then DropNa(csvColumn) else FallbackCorpus
  }

  /** One label per text, in the same order. */
  function Labels(texts: seq<string>): (ys: seq<int>)
    ensures |ys| == |texts|
    ensures forall i :: 0 <= i < |texts| ==> ys[i] == Label(Some(texts[i]))
  {
    if texts == [] then [] else [Label(Some(texts[0]))] + Labels(texts[1..])
  }

  lemma LabelsSpec(texts: seq<string>)
    ensures forall i :: 0 <= i < |texts| ==>
      (Labels(texts)[i] == 0 || Labels(texts)[i] == 1) && (Labels(texts)[i] == 1 <==> HasKeyword(texts[i]))
  {
    forall i | 0 <= i < |texts|
      ensures Labels(texts)[i] == 1 <==> HasKeyword(texts[i])
    {
      LabelSpec(texts[i]);
    }
  }

  /** The feature column X and the label column y handed to training. */
  datatype TrainingSet = TrainingSet(x: seq<string>, y: seq<int>)

  /**
   * The training set: X is the corpus, y holds one label per text in the same
   * order, each 0 or 1, and 1 exactly when the text contains a keyword.
   */
  function BuildTrainingSet(csvExists: bool, csvColumn: seq<Option<string>>): (ts: TrainingSet)
    ensures |ts.x| == |ts.y|
    ensures ts.x == Corpus(csvExists, csvColumn)
    ensures forall i :: 0 <= i < |ts.y| ==>
      (ts.y[i] == 0 || ts.y[i] == 1) && (ts.y[i] == 1 <==> HasKeyword(ts.x[i]))
  {
    var x := Corpus(csvExists, csvColumn);
    LabelsSpec(x);
    TrainingSet(x, Labels(x))
  }

  /** A text in which none of the three alternatives is found is labelled 0. */
  lemma UnlabelledWithoutKeyword(text: string)
    requires !Search(text, "water") && !Search(text, "leak") && !Search(text, "pipe")
    ensures Label(Some(text)) == 0
  {
  }

  lemma FallbackRow0Labelled()
    ensures Label(Some("Water leak reported on Elm Street")) == 1
  {
    assert MatchesAt("Water leak reported on Elm Street", 0, "water");
    assert Search("Water leak reported on Elm Street", "water");
  }

  lemma FallbackRow2Labelled()
    ensures Label(Some("Pipe burst causing flooding in basement")) == 1
  {
    assert MatchesAt("Pipe burst causing flooding in basement", 0, "pipe");
    assert Search("Pipe burst causing flooding in basement", "pipe");
  }

  lemma FallbackRow1Unlabelled()
    ensures Label(Some("Broken streetlight at 5th Ave")) == 0
  {
    FallbackRow1OmitsWater();
    FallbackRow1OmitsLeak();
    FallbackRow1OmitsPipe();
    UnlabelledWithoutKeyword("Broken streetlight at 5th Ave");
  }

  lemma FallbackRow1OmitsWater()
    ensures !Search("Broken streetlight at 5th Ave", "water")
  {
    NoMatchAtCandidates("Broken streetlight at 5th Ave", "water", map[]);
  }

  lemma FallbackRow1OmitsLeak()
    ensures !Search("Broken streetlight at 5th Ave", "leak")
  {
    NoMatchAtCandidates("Broken streetlight at 5th Ave", "leak", map[13 := 1]);
  }

  lemma FallbackRow1OmitsPipe()
    ensures !Search("Broken streetlight at 5th Ave", "pipe")
  {
    NoMatchAtCandidates("Broken streetlight at 5th Ave", "pipe", map[]);
  }

  lemma FallbackRow3Unlabelled()
    ensures Label(Some("Garbage not collected for 2 weeks")) == 0
  {
    FallbackRow3OmitsWater();
    FallbackRow3OmitsLeak();
    FallbackRow3OmitsPipe();
    UnlabelledWithoutKeyword("Garbage not collected for 2 weeks");
  }

  lemma FallbackRow3OmitsWater()
    ensures !Search("Garbage not collected for 2 weeks", "water")
  {
    NoMatchAtCandidates("Garbage not collected for 2 weeks", "water", map[28 := 1]);
  }

  lemma FallbackRow3OmitsLeak()
    ensures !Search("Garbage not collected for 2 weeks", "leak")
  {
    NoMatchAtCandidates("Garbage not collected for 2 weeks", "leak", map[14 := 1, 15 := 2]);
  }

  lemma FallbackRow3OmitsPipe()
    ensures !Search("Garbage not collected for 2 weeks", "pipe")
  {
    NoMatchAtCandidates("Garbage not collected for 2 weeks", "pipe", map[]);
  }

  lemma FallbackRow4Unlabelled()
    ensures Label(Some("Sewer smell and clogged drain near park")) == 0
  {
    FallbackRow4OmitsWater();
    FallbackRow4OmitsLeak();
    FallbackRow4OmitsPipe();
    UnlabelledWithoutKeyword("Sewer smell and clogged drain near park");
  }

  lemma FallbackRow4OmitsWater()
    ensures !Search("Sewer smell and clogged drain near park", "water")
  {
    NoMatchAtCandidates("Sewer smell and clogged drain near park", "water", map[2 := 1]);
  }

  lemma FallbackRow4OmitsLeak()
    ensures !Search("Sewer smell and clogged drain near park", "leak")
  {
    NoMatchAtCandidates("Sewer smell and clogged drain near park", "leak", map[9 := 1, 10 := 1, 17 := 1]);
  }

  lemma FallbackRow4OmitsPipe()
    ensures !Search("Sewer smell and clogged drain near park", "pipe")
  {
    NoMatchAtCandidates("Sewer smell and clogged drain near park", "pipe", map[35 := 1]);
  }

  /** The rows of the fallback corpus, as written. */
  lemma FallbackRows()
    ensures |FallbackCorpus| == 5
    ensures FallbackCorpus[0] == "Water leak reported on Elm Street"
    ensures FallbackCorpus[1] == "Broken streetlight at 5th Ave"
    ensures FallbackCorpus[2] == "Pipe burst causing flooding in basement"
    ensures FallbackCorpus[3] == "Garbage not collected for 2 weeks"
    ensures FallbackCorpus[4] == "Sewer smell and clogged drain near park"
  {
  }

  lemma FallbackLabel0()
    ensures Label(Some(FallbackCorpus[0])) == 1
  {
    FallbackRows();
    FallbackRow0Labelled();
  }

  lemma FallbackLabel1()
    ensures Label(Some(FallbackCorpus[1])) == 0
  {
    FallbackRows();
    FallbackRow1Unlabelled();
  }

  lemma FallbackLabel2()
    ensures Label(Some(FallbackCorpus[2])) == 1
  {
    FallbackRows();
    FallbackRow2Labelled();
  }

  lemma FallbackLabel3()
    ensures Label(Some(FallbackCorpus[3])) == 0
  {
    FallbackRows();
    FallbackRow3Unlabelled();
  }

  lemma FallbackLabel4()
    ensures Label(Some(FallbackCorpus[4])) == 0
  {
    FallbackRows();
    FallbackRow4Unlabelled();
  }

  /** Five texts with the labels of the fallback rows give the label column 1, 0, 1, 0, 0. */
  lemma LabelsOfFive(texts: seq<string>)
    requires |texts| == 5
    requires Label(Some(texts[0])) == 1 && Label(Some(texts[1])) == 0 && Label(Some(texts[2])) == 1
    requires Label(Some(texts[3])) == 0 && Label(Some(texts[4])) == 0
    ensures Labels(texts) == [1, 0, 1, 0, 0]
  {
  }

  /** The fallback rows are labelled 1, 0, 1, 0, 0. */
  lemma FallbackLabels()
    ensures Labels(FallbackCorpus) == [1, 0, 1, 0, 0]
  {
    FallbackLabel0();
    FallbackLabel1();
    FallbackLabel2();
    FallbackLabel3();
    FallbackLabel4();
    LabelsOfFive(FallbackCorpus);
  }

  /**
   * Without the CSV file the model is trained on the five fallback rows with
   * the labels 1, 0, 1, 0, 0, whatever the column would have held.
   */
  lemma FallbackTrainingSet(csvColumn: seq<Option<string>>)
    ensures BuildTrainingSet(false, csvColumn).x == FallbackCorpus
    ensures BuildTrainingSet(false, csvColumn).y == [1, 0, 1, 0, 0]
  {
    FallbackLabels();
  }
}
