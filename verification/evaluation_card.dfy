/** The evaluation card: the overall score band, the tip lists read from
    either evaluation shape, the collapsible tip sections, and the date of
    the last attempt with an English ordinal day. */
module EvaluationCard {
  import opened Wrappers
  import opened Text
  import opened Model
  import opened ResourceUtils

  /** The card accepts the nested shape or the flat one. */
  datatype CardEvaluation = Nested(nested: Evaluation) | Flat(flat: FlatEvaluation)

  function TotalScore(c: CardEvaluation): real
  {
    match c
    case Nested(e) => e.totalScore
    case Flat(f) => f.totalScore
  }

  /** `normalizedTips`: the `tips` group of a nested record, the flat
      record's own tip fields otherwise. */
  function NormalizedTips(c: CardEvaluation): (t: Tips)
    ensures c.Nested? ==> t == c.nested.tips
    ensures c.Flat? ==> t == c.flat.TipLists()
  {
    match c
    case Nested(e) => e.tips
    case Flat(f) => Tips(f.articulationTip, f.clarityTip, f.rythmTip, f.speedTip)
  }

  /** A flat record and its nested form show the same tips and the same
      total, whatever URL the nested form carries. */
  lemma SameTipsEitherShape(f: FlatEvaluation, audioUrl: Option<string>)
    ensures NormalizedTips(Nested(TransformEvaluation(f, audioUrl))) == NormalizedTips(Flat(f))
    ensures TotalScore(Nested(TransformEvaluation(f, audioUrl))) == TotalScore(Flat(f))
  {
  }

  datatype ScoreBand = Excellent | VeryGood | Good | NeedsPractice
  {
    function Text(): string
    {
      match this
      case Excellent => "Excellent"
      case VeryGood => "Very Good"
      case Good => "Good"
      case NeedsPractice => "Needs Practice"
    }

    /** Bands in increasing order of merit. */
    function Rank(): nat
    {
      match this
      case NeedsPractice => 0
      case Good => 1
      case VeryGood => 2
      case Excellent => 3
    }
  }

  /** `getOverallScoreFeedback`: [80, ∞) Excellent, [41, 80) Very Good,
      [10, 41) Good, below 10 Needs Practice. */
  function OverallScoreFeedback(totalScore: real): (b: ScoreBand)
    ensures b == Excellent <==> totalScore >= 80.0
    ensures b == VeryGood <==> 41.0 <= totalScore < 80.0
    ensures b == Good <==> 10.0 <= totalScore < 41.0
    ensures b == NeedsPractice <==> totalScore < 10.0
  {
    if totalScore >= 80.0 then Excellent
    else if totalScore >= 41.0 then VeryGood
    else if totalScore >= 10.0 then Good
    else NeedsPractice
  }

  /** A higher score never lands in a lower band. */
  lemma OverallScoreFeedbackMonotonic(s: real, t: real)
    requires s <= t
    ensures OverallScoreFeedback(s).Rank() <= OverallScoreFeedback(t).Rank()
  {
  }

  /** The ordinal suffix the card appends to a day of the month. */
  function DaySuffix(day: nat): (s: string)
    ensures s in {"st", "nd", "rd", "th"}
    ensures 3 < day < 21 ==> s == "th"
  {
    if 3 < day < 21 then "th"
    else if day % 10 == 1 then "st"
    else if day % 10 == 2 then "nd"
    else if day % 10 == 3 then "rd"
    else "th"
  }

  /** English ordinal suffixes, by the usual rule: 11, 12 and 13 (and
      anything else ending in 11–13) take "th", otherwise the last digit
      decides. */
  function EnglishOrdinalSuffix(n: nat): string
  {
    if 11 <= n % 100 <= 13 then "th"
    else if n % 10 == 1 then "st"
    else if n % 10 == 2 then "nd"
    else if n % 10 == 3 then "rd"
    else "th"
  }

  /** For every day a calendar date can have, the card's rule is the
      English one. */
  lemma DaySuffixIsEnglish(day: nat)
    requires 1 <= day <= 31
    ensures DaySuffix(day) == EnglishOrdinalSuffix(day)
  {
  }

  /** `getDayWithSuffix`: the day in decimal followed by its suffix. */
  function DayWithSuffix(day: nat): (s: string)
    ensures |s| >= 3 && s[|s| - 2..] == DaySuffix(day)
    ensures AllDigits(s[..|s| - 2]) && DigitsValue(s[..|s| - 2]) == day
  {
    var digits := NatToString(day);
    NatToStringRoundTrip(day);
    assert (digits + DaySuffix(day))[..|digits|] == digits;
    digits + DaySuffix(day)
  }

  /** The calendar fields of a parsed date, with the month's English name. */
  datatype CalendarDate = CalendarDate(monthName: string, day: nat, year: int)

  /** `formatDate`: a missing or empty date string gives "", otherwise
      "<Month> <day with suffix>, <year>" of the parsed date. */
  function FormatDate(dateString: Option<string>, parsed: CalendarDate): (s: string)
    ensures s == "" <==> !Truthy(dateString)
    ensures Truthy(dateString) ==>
      var head := parsed.monthName + " " + DayWithSuffix(parsed.day) + ", ";
      StartsWith(s, head) && ParseInt(s[|head|..]) == Some(parsed.year)
  {
    if !Truthy(dateString) then ""
    else
      var head := parsed.monthName + " " + DayWithSuffix(parsed.day) + ", ";
      var r := head + IntToString(parsed.year);
      assert r[..|head|] == head;
      assert r[|head|..] == IntToString(parsed.year);
      ParseIntRoundTrip(parsed.year);
      r
  }

  // ----- collapsible sections -----

  const SpeedSection: string := "Speed"

  /** `!!openSections[section]`: a section never toggled counts as closed. */
  predicate IsOpenIn(open: map<string, bool>, section: string)
  {
    section in open && open[section]
  }

  /** The map after `handleToggle(section)`. */
  function Toggled(open: map<string, bool>, section: string): (r: map<string, bool>)
    ensures r.Keys == open.Keys + {section}
    ensures IsOpenIn(r, section) == !IsOpenIn(open, section)
    ensures forall other :: other != section ==> IsOpenIn(r, other) == IsOpenIn(open, other)
  {
    open[section := !IsOpenIn(open, section)]
  }

  /** Toggling twice restores what every section shows, and restores the map
      itself once the section has an entry. */
  lemma ToggleTwice(open: map<string, bool>, section: string)
    ensures forall s :: IsOpenIn(Toggled(Toggled(open, section), section), s) == IsOpenIn(open, s)
    ensures section in open ==> Toggled(Toggled(open, section), section) == open
  {
    var twice := Toggled(Toggled(open, section), section);
    if section in open {
      assert twice.Keys == open.Keys;
      assert twice[section] == open[section];
    }
  }

  const InitialSections: map<string, bool> := map[SpeedSection := true]

  /** Initially the Speed section is the only open one. */
  lemma InitiallyOnlySpeedOpen(section: string)
    ensures IsOpenIn(InitialSections, section) <==> section == SpeedSection
  {
  }

  /** The card's open/closed state. */
  class SectionToggles {
    var openSections: map<string, bool>

    constructor ()
      ensures openSections == InitialSections
    {
      openSections := InitialSections;
    }

    predicate IsOpen(section: string)
      reads this
    {
      IsOpenIn(openSections, section)
    }

    /** `handleToggle`: only the named section flips. */
    method HandleToggle(section: string)
      modifies this
      ensures openSections == Toggled(old(openSections), section)
      ensures IsOpen(section) == !old(IsOpen(section))
      ensures forall s :: s != section ==> IsOpen(s) == old(IsOpen(s))
    {
      var wasOpen := section in openSections && openSections[section];
      openSections := openSections[section := !wasOpen];
    }
  }
}
