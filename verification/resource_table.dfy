/** The rows of the resource table: the status dot, the description, the
    situation (category) column and the duration column, and the row shown
    when the list is empty. */
module ResourceTable {
  import opened Wrappers
  import opened Text
  import opened Model
  import opened Seqs
  import ResourceUtils

  datatype Status = Completed | InProgress | Pending
  {
    function Name(): string
    {
      match this
      case Completed => "completed"
      case InProgress => "in-progress"
      case Pending => "pending"
    }
  }

  /** Completed wins; otherwise any attempt means in progress; otherwise
      pending. */
  function StatusOf(r: ResourceWithProgress): (s: Status)
    ensures s == Completed <==> r.isCompleted
    ensures s == InProgress <==> !r.isCompleted && r.attempts > 0
    ensures s == Pending <==> !r.isCompleted && r.attempts == 0
  {
    if r.isCompleted then Completed else if r.attempts > 0 then InProgress else Pending
  }

  /** `getDescription`: texts are cut to five words, words and sentences
      are shown whole. */
  function Description(resourceType: string, r: ResourceWithProgress): (d: string)
    ensures resourceType != "texts" ==> d == r.resource.text
    ensures resourceType == "texts" ==> d == ResourceUtils.TruncateText(r.resource.text, 5)
    ensures |Split(d, ' ')| <= (if resourceType == "texts" then 5 else |Split(r.resource.text, ' ')|)
  {
    ResourceUtils.TruncateTextWordBound(r.resource.text, 5);
    if resourceType == "texts" then ResourceUtils.TruncateText(r.resource.text, 5) else r.resource.text
  }

  function CategoryIs(category: string): string -> bool
  {
    (c: string) => EqualsIgnoreCase(c, category)
  }

  /** The situation column: the first category equal to the selected one
      up to case, else the first category, else "-" (an empty string
      counts as missing at each step). */
  function Situation(categories: seq<string>, category: string): (s: string)
    ensures s != ""
    ensures s == "-" || s in categories
    ensures Find(categories, CategoryIs(category)).Some? && Find(categories, CategoryIs(category)).value != "" ==>
      s == Find(categories, CategoryIs(category)).value
    ensures Find(categories, CategoryIs(category)).None? ==>
      s == if categories != [] && categories[0] != "" then categories[0] else "-"
  {
    var found := Find(categories, CategoryIs(category));
    if found.Some? && found.value != "" then found.value
    else if categories != [] && categories[0] != "" then categories[0]
    else "-"
  }

  /** With the "all" selection (which no category equals unless it is
      named "all"), the first category is shown. */
  lemma SituationShowsFirstCategory(categories: seq<string>, category: string)
    requires categories != [] && categories[0] != ""
    requires forall i :: 0 <= i < |categories| ==> !EqualsIgnoreCase(categories[i], category)
    ensures Situation(categories, category) == categories[0]
  {
    assert forall j :: 0 <= j < |categories| ==> !CategoryIs(category)(categories[j]);
  }

  /** `Math.round` for a finite value: the nearest integer, halves rounded
      up. */
  function Round(x: real): (n: int)
    ensures n as real - 0.5 <= x < n as real + 0.5
  {
    (x + 0.5).Floor
  }

  /** `formatDuration`: a missing or NaN duration shows "-"; otherwise the
      rounded number of seconds followed by " sec". */
  function FormatDuration(duration: Option<Number>): (s: string)
    ensures s == "-" <==> duration.None? || duration.value.NaN?
    ensures duration.Some? && duration.value.Finite? ==>
      && |s| > 4 && s[|s| - 4..] == " sec"
      && ParseInt(s[..|s| - 4]) == Some(Round(duration.value.value))
  {
    match duration
    case Some(Finite(x)) =>
      var digits := IntToString(Round(x));
      ParseIntRoundTrip(Round(x));
      var s := digits + " sec";
      assert s[..|s| - 4] == digits;
      s
    case _ => "-"
  }

  /** What the table body shows. */
  datatype TableBody = NoResourcesRow | Rows(rows: seq<Row>)

  /** One row: status, description, situation, duration, word count and
      the id the "See more" button opens. */
  datatype Row = Row(status: Status, description: string, situation: string, duration: string, wordCount: nat, opens: string)

  function RowOf(resourceType: string, category: string, r: ResourceWithProgress): Row
  {
    Row(StatusOf(r), Description(resourceType, r), Situation(r.categories, category),
      FormatDuration(r.resource.audioDuration), r.resource.wordCount, r.resource.id)
  }

  /** An empty list shows only the "No resources found" row; otherwise one
      row per resource, in order. */
  function TableBodyOf(resourceType: string, category: string, resources: seq<ResourceWithProgress>): (b: TableBody)
    ensures b.NoResourcesRow? <==> resources == []
    ensures b.Rows? ==> (|b.rows| == |resources|
      && forall i :: 0 <= i < |resources| ==> b.rows[i].opens == resources[i].resource.id)
    ensures b.Rows? ==> forall i :: 0 <= i < |b.rows| ==> b.rows[i] == RowOf(resourceType, category, resources[i])
  {
    if resources == [] then NoResourcesRow
    else Rows(seq(|resources|, i requires 0 <= i < |resources| => RowOf(resourceType, category, resources[i])))
  }
}
