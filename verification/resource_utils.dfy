/** Display helpers for resources: first-letter capitalisation, word-limit
    truncation, difficulty labels, and the flat-to-nested evaluation
    conversion. */
module ResourceUtils {
  import opened Wrappers
  import opened Text
  import opened Model

  /** `capitalizeFirstLetter`: the first character upper-cased (ASCII), the
      rest unchanged. */
  function CapitalizeFirstLetter(s: string): (r: string)
    ensures |r| == |s|
    ensures s != [] ==> r[0] == UpperChar(s[0]) && r[1..] == s[1..]
  {
    if s == [] then "" else [UpperChar(s[0])] + s[1..]
  }

  /** Capitalising twice is capitalising once. */
  lemma CapitalizeIdempotent(s: string)
    ensures CapitalizeFirstLetter(CapitalizeFirstLetter(s)) == CapitalizeFirstLetter(s)
  {
    if s != [] {
      var c := s[0];
      if 'a' <= c <= 'z' {
        assert !('a' <= UpperChar(c) <= 'z');
      }
      assert UpperChar(UpperChar(c)) == UpperChar(c);
    }
  }

  const Ellipsis: string := "..."

  /** `truncateText`: the empty text gives ""; a text of at most `wordLimit`
      space-separated words is returned as it is; a longer one keeps the
      prefix made of its first `wordLimit` words and gains "...". */
  function TruncateText(text: string, wordLimit: nat): (r: string)
    ensures text == [] ==> r == []
    ensures text != [] && |Split(text, ' ')| <= wordLimit ==> r == text
    ensures text != [] && |Split(text, ' ')| > wordLimit ==>
      && |r| >= 3 && r[|r| - 3..] == Ellipsis
      && StartsWith(text, r[..|r| - 3])
      && (wordLimit == 0 ==> r == Ellipsis)
      && (wordLimit > 0 ==> Split(r[..|r| - 3], ' ') == Split(text, ' ')[..wordLimit])
  {
    if text == [] then ""
    else
      var words := Split(text, ' ');
      if |words| > wordLimit then
        var kept := Join(words[..wordLimit], ' ');
        KeptWords(text, wordLimit);
        assert (kept + Ellipsis)[..|kept|] == kept;
        kept + Ellipsis
      else text
  }

  /** The first `n` words, joined back, are a prefix of the text and split
      into exactly those words. */
  lemma KeptWords(text: string, n: nat)
    requires n <= |Split(text, ' ')|
    ensures StartsWith(text, Join(Split(text, ' ')[..n], ' '))
    ensures n > 0 ==> Split(Join(Split(text, ' ')[..n], ' '), ' ') == Split(text, ' ')[..n]
  {
    var words := Split(text, ' ');
    JoinSplit(text, ' ');
    JoinPrefix(words, n, ' ');
    if n > 0 {
      SplitJoin(words[..n], ' ');
    }
  }

  /** Truncating a truncated text changes nothing: the kept words plus the
      ellipsis are exactly `wordLimit` words. */
  lemma TruncateTextIdempotent(text: string, wordLimit: nat)
    ensures TruncateText(TruncateText(text, wordLimit), wordLimit) == TruncateText(text, wordLimit)
  {
    var words := Split(text, ' ');
    if text != [] && |words| > wordLimit {
      var r := TruncateText(text, wordLimit);
      var kept := Join(words[..wordLimit], ' ');
      assert r == kept + Ellipsis;
      if wordLimit == 0 {
        SplitPrefix(Ellipsis, "", ' ');
        assert Ellipsis + "" == Ellipsis;
      } else {
        SplitJoinAppend(words[..wordLimit], Ellipsis, ' ');
        assert |Split(r, ' ')| == wordLimit;
      }
    }
  }

  /** The result never has more than `wordLimit` space-separated pieces
      (the ellipsis rides on the last kept word). */
  lemma TruncateTextWordBound(text: string, wordLimit: nat)
    requires wordLimit > 0
    ensures |Split(TruncateText(text, wordLimit), ' ')| <= wordLimit
  {
    var words := Split(text, ' ');
    if text != [] && |words| > wordLimit {
      KeptWords(text, wordLimit);
      SplitJoinAppend(words[..wordLimit], Ellipsis, ' ');
    }
  }

  /** The two kinds of difficulty value the code passes around. */
  datatype Level = LevelText(s: string) | LevelNumber(n: real)

  /** `mapDifficulty`: by the value's string form, "0", "1" and "2" name the
      three difficulties and everything else is "Unknown". */
  function MapDifficulty(level: Level): (r: string)
    ensures r == "Easy" <==> level == LevelText("0") || level == LevelNumber(0.0)
    ensures r == "Intermediate" <==> level == LevelText("1") || level == LevelNumber(1.0)
    ensures r == "Difficult" <==> level == LevelText("2") || level == LevelNumber(2.0)
    ensures r in {"Easy", "Intermediate", "Difficult", "Unknown"}
  {
    match level
    case LevelText(s) =>
      if s == "0" then "Easy"
      else if s == "1" then "Intermediate"
      else if s == "2" then "Difficult"
      else "Unknown"
    case LevelNumber(n) =>
      if n == 0.0 then "Easy"
      else if n == 1.0 then "Intermediate"
      else if n == 2.0 then "Difficult"
      else "Unknown"
  }

  /** A whole number and its decimal text get the same label. */
  lemma MapDifficultyAgrees(n: nat)
    ensures MapDifficulty(LevelText(NatToString(n))) == MapDifficulty(LevelNumber(n as real))
  {
    if n <= 2 {
      assert NatToString(n) == [DigitChar(n)];
    } else {
      NatToStringRoundTrip(n);
      assert DigitsValue("0") == 0 && DigitsValue("1") == 1 && DigitsValue("2") == 2;
    }
  }

  /** `transformEvaluation`: scores and level copied, the four tip lists
      nested under `tips`, and the reference recording's URL attached. */
  function TransformEvaluation(raw: FlatEvaluation, audioUrl: Option<string>): (r: Evaluation)
    ensures r.Scores() == raw.Scores() && r.classification == raw.classification
    ensures r.tips == raw.TipLists() && r.audioUrl == audioUrl
  {
    Evaluation(
      raw.articulationScore, raw.clarityScore, raw.rythmScore, raw.speedScore, raw.totalScore,
      Tips(raw.articulationTip, raw.clarityTip, raw.rythmTip, raw.speedTip),
      raw.classification, audioUrl)
  }

  /** The inverse direction: a nested evaluation read back as a flat one. */
  function Flatten(e: Evaluation): (r: FlatEvaluation)
    ensures r.Scores() == e.Scores() && r.TipLists() == e.tips
    ensures r.classification == e.classification
  {
    FlatEvaluation(
      e.tips.articulationTip, e.tips.clarityTip, e.tips.rythmTip, e.tips.speedTip,
      e.articulationScore, e.clarityScore, e.rythmScore, e.speedScore, e.totalScore,
      e.classification)
  }

  /** Nesting loses nothing, and a nested record is the nesting of its
      flattening under its own URL. */
  lemma TransformRoundTrip(raw: FlatEvaluation, audioUrl: Option<string>, e: Evaluation)
    ensures Flatten(TransformEvaluation(raw, audioUrl)) == raw
    ensures TransformEvaluation(Flatten(e), e.audioUrl) == e
  {
  }
}
