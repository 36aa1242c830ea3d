/** The resource browser whose selections live in the page URL: the type,
    category, difficulty and page are read from the search parameters
    (with defaults), and the change handlers rewrite those parameters. */
module UrlResourceManager {
  import opened Wrappers
  import opened Text
  import opened Model
  import opened Browsing
  import ResourceUtils

  type SearchParams = map<string, string>

  /** `searchParams.get(key) || fallback`: a missing or empty parameter
      reads as the fallback. */
  function ParamOr(params: SearchParams, key: string, fallback: string): (v: string)
    ensures key in params && params[key] != "" ==> v == params[key]
    ensures !(key in params && params[key] != "") ==> v == fallback
  {
    if key in params && params[key] != "" then params[key] else fallback
  }

  function ResourceTypeOf(params: SearchParams): string
  {
    ParamOr(params, "type", "words")
  }

  function CategoryOf(params: SearchParams): string
  {
    ParamOr(params, "category", "all")
  }

  function DifficultyOf(params: SearchParams): string
  {
    ParamOr(params, "difficulty", "0")
  }

  /** `parseInt(searchParams.get("page") || "1", 10)`; None is NaN. */
  function CurrentPageOf(params: SearchParams): Option<int>
  {
    ParseInt(ParamOr(params, "page", "1"))
  }

  /** `setAllResourcesWithProgress(result || [])` after the fetch, and []
      after a failed one. */
  function LoadedList(result: Outcome<Option<seq<ResourceWithProgress>>>): (list: seq<ResourceWithProgress>)
    ensures result.Throw? || result.value.None? ==> list == []
    ensures result.Ok? && result.value.Some? ==> list == result.value.value
  {
    match result
    case Ok(Some(list)) => list
    case _ => []
  }

  /** The four parameter names are different keys. */
  lemma ParamNamesDistinct()
    ensures "type" != "category" && "type" != "difficulty" && "type" != "page"
    ensures "category" != "difficulty" && "category" != "page" && "difficulty" != "page"
  {
    assert "type"[0] != "page"[0];
  }

  /** `prev.set(key, value); prev.set("page", "1")` */
  function Selected(params: SearchParams, key: string, value: string): SearchParams
  {
    params[key := value]["page" := "1"]
  }

  /** Setting the category keeps the type and difficulty and lands on
      page 1. */
  lemma SelectedCategory(params: SearchParams, value: string)
    ensures var after := Selected(params, "category", value);
      && CurrentPageOf(after) == Some(1)
      && ResourceTypeOf(after) == ResourceTypeOf(params)
      && DifficultyOf(after) == DifficultyOf(params)
      && (value != "" ==> CategoryOf(after) == value)
  {
    ParamNamesDistinct();
    SelectedKeeps(params, "category", value, "type", "words");
    SelectedKeeps(params, "category", value, "difficulty", "0");
    if value != "" {
      SelectedSets(params, "category", value, "all");
    }
    PageOneAfterSet(params["category" := value]);
  }

  /** Setting the difficulty keeps the type and category and lands on
      page 1. */
  lemma SelectedDifficulty(params: SearchParams, value: string)
    ensures var after := Selected(params, "difficulty", value);
      && CurrentPageOf(after) == Some(1)
      && ResourceTypeOf(after) == ResourceTypeOf(params)
      && CategoryOf(after) == CategoryOf(params)
      && (value != "" ==> DifficultyOf(after) == value)
  {
    ParamNamesDistinct();
    SelectedKeeps(params, "difficulty", value, "type", "words");
    SelectedKeeps(params, "difficulty", value, "category", "all");
    if value != "" {
      SelectedSets(params, "difficulty", value, "0");
    }
    PageOneAfterSet(params["difficulty" := value]);
  }

  /** Writing a page's numeral reads back as that page and keeps the other
      three parameters. */
  lemma SelectedPage(params: SearchParams, page: int)
    ensures var after := params["page" := IntToString(page)];
      && CurrentPageOf(after) == Some(page)
      && ResourceTypeOf(after) == ResourceTypeOf(params)
      && CategoryOf(after) == CategoryOf(params)
      && DifficultyOf(after) == DifficultyOf(params)
  {
    PageReadsBack(params, IntToString(page));
    ParseIntRoundTrip(page);
  }

  /** Setting "page" leaves the other three parameters as they were, and
      a non-empty page value is read as given. */
  lemma PageReadsBack(params: SearchParams, numeral: string)
    requires numeral != ""
    ensures var after := params["page" := numeral];
      && ParamOr(after, "page", "1") == numeral
      && ResourceTypeOf(after) == ResourceTypeOf(params)
      && CategoryOf(after) == CategoryOf(params)
      && DifficultyOf(after) == DifficultyOf(params)
  {
    ParamNamesDistinct();
  }

  /** Selecting a value for one parameter leaves every other filter as it
      was. */
  lemma SelectedKeeps(params: SearchParams, key: string, value: string, other: string, fallback: string)
    requires key != other && other != "page"
    ensures ParamOr(Selected(params, key, value), other, fallback) == ParamOr(params, other, fallback)
  {
    OtherKeyKept(params, key, value, other, fallback);
    OtherKeyKept(params[key := value], "page", "1", other, fallback);
  }

  /** A selected non-empty value is read back. */
  lemma SelectedSets(params: SearchParams, key: string, value: string, fallback: string)
    requires key != "page" && value != ""
    ensures ParamOr(Selected(params, key, value), key, fallback) == value
  {
  }

  /** Setting one parameter leaves another one as it was. */
  lemma OtherKeyKept(params: SearchParams, key: string, value: string, other: string, fallback: string)
    requires key != other
    ensures ParamOr(params[key := value], other, fallback) == ParamOr(params, other, fallback)
  {
  }

  /** The numeral "1" reads as page 1. */
  lemma ParseOne()
    ensures ParseInt("1") == Some(1)
  {
    ParseIntRoundTrip(1);
    assert IntToString(1) == "1";
  }

  /** Setting the page to "1" lands on page 1. */
  lemma PageOneAfterSet(params: SearchParams)
    ensures CurrentPageOf(params["page" := "1"]) == Some(1)
  {
    assert ParamOr(params["page" := "1"], "page", "1") == "1";
    ParseOne();
  }

  /** The parameters a change of resource type leaves: the new type, every
      category, the easy level, page 1. */
  lemma ResetParams(resourceType: string)
    ensures var params := map["type" := resourceType, "category" := "all", "difficulty" := "0", "page" := "1"];
      && (resourceType != "" ==> ResourceTypeOf(params) == resourceType)
      && CategoryOf(params) == "all" && DifficultyOf(params) == "0" && CurrentPageOf(params) == Some(1)
  {
    ResetFilters(resourceType);
    var start := map["type" := resourceType, "category" := "all", "difficulty" := "0"];
    assert map["type" := resourceType, "category" := "all", "difficulty" := "0", "page" := "1"] == start["page" := "1"];
    PageOneAfterSet(start);
  }

  lemma ResetFilters(resourceType: string)
    ensures var params := map["type" := resourceType, "category" := "all", "difficulty" := "0", "page" := "1"];
      && (resourceType != "" ==> ResourceTypeOf(params) == resourceType)
      && CategoryOf(params) == "all" && DifficultyOf(params) == "0"
  {
    ParamNamesDistinct();
  }

  /** With no parameters the browser shows page 1 of the easy words in
      every category. */
  lemma DefaultParams()
    ensures ResourceTypeOf(map[]) == "words"
    ensures CategoryOf(map[]) == "all"
    ensures DifficultyOf(map[]) == "0"
    ensures CurrentPageOf(map[]) == Some(1)
  {
    ParseOne();
  }

  class ResourceManager {
    const userId: Option<string>
    var params: SearchParams
    var allResources: seq<ResourceWithProgress>

    constructor (userId: Option<string>, params: SearchParams)
      ensures this.userId == userId && this.params == params && allResources == []
    {
      this.userId := userId;
      this.params := params;
      allResources := [];
    }

    function ResourceType(): string
      reads this
    {
      ResourceTypeOf(params)
    }

    function Category(): string
      reads this
    {
      CategoryOf(params)
    }

    function Difficulty(): string
      reads this
    {
      DifficultyOf(params)
    }

    function CurrentPage(): Option<int>
      reads this
    {
      CurrentPageOf(params)
    }

    function CapitalizedResourceType(): string
      reads this
    {
      ResourceUtils.CapitalizeFirstLetter(ResourceType())
    }

    function FilteredResources(): seq<ResourceWithProgress>
      reads this
    {
      Filter(allResources, Category(), Difficulty())
    }

    /** The current page of the filtered list: at most ten resources, each
        of them kept by the filter. */
    function PaginatedResources(): (page: seq<ResourceWithProgress>)
      reads this
      ensures |page| <= ItemsPerPage
      ensures forall r :: r in page ==> r in allResources && Keeps(r, Category(), Difficulty())
    {
      var filtered := FilteredResources();
      var page := Page(filtered, CurrentPage());
      PageWithin(filtered, CurrentPage());
      page
    }

    function TotalPageCount(): nat
      reads this
    {
      TotalPages(|FilteredResources()|)
    }

    /** The load effect: without a user nothing is fetched; a fetched list
        (or [] for none) replaces the resources, and a failed fetch empties
        them. */
    method LoadResources(result: Outcome<Option<seq<ResourceWithProgress>>>) returns (ghost fetched: bool)
      modifies this
      ensures fetched <==> Truthy(userId)
      ensures !fetched ==> allResources == old(allResources)
      ensures fetched ==> allResources == LoadedList(result)
      ensures params == old(params)
    {
      if !Truthy(userId) {
        return false;
      }
      fetched := true;
      match result {
        case Ok(Some(list)) =>
          allResources := list;
        case _ =>
          allResources := [];
      }
    }

    /** `handleResourceTypeChange`: the parameters are replaced by the new
        type with category "all", difficulty "0" and page 1. */
    method HandleResourceTypeChange(resourceType: string)
      modifies this
      ensures params == map["type" := resourceType, "category" := "all", "difficulty" := "0", "page" := "1"]
      ensures resourceType != "" ==> ResourceType() == resourceType
      ensures Category() == "all" && Difficulty() == "0" && CurrentPage() == Some(1)
      ensures allResources == old(allResources)
    {
      params := map["type" := resourceType, "category" := "all", "difficulty" := "0", "page" := "1"];
      ResetParams(resourceType);
    }

    /** `handleCategoryChange`: the chip rule picks the next category and
        the page goes back to 1; the type and difficulty stay. */
    method HandleCategoryChange(newCategory: string)
      modifies this
      ensures params == Selected(old(params), "category", NextSelection(old(Category()), newCategory))
      ensures newCategory != "" ==> Category() == NextSelection(old(Category()), newCategory)
      ensures CurrentPage() == Some(1)
      ensures ResourceType() == old(ResourceType()) && Difficulty() == old(Difficulty())
      ensures allResources == old(allResources)
    {
      SelectedCategory(params, NextSelection(Category(), newCategory));
      params := Selected(params, "category", NextSelection(Category(), newCategory));
    }

    /** `handleDifficultyChange`: the chip rule picks the next difficulty
        and the page goes back to 1; the type and category stay. */
    method HandleDifficultyChange(newDifficulty: string)
      modifies this
      ensures params == Selected(old(params), "difficulty", NextSelection(old(Difficulty()), newDifficulty))
      ensures newDifficulty != "" ==> Difficulty() == NextSelection(old(Difficulty()), newDifficulty)
      ensures CurrentPage() == Some(1)
      ensures ResourceType() == old(ResourceType()) && Category() == old(Category())
      ensures allResources == old(allResources)
    {
      SelectedDifficulty(params, NextSelection(Difficulty(), newDifficulty));
      params := Selected(params, "difficulty", NextSelection(Difficulty(), newDifficulty));
    }

    /** `handlePageChange`: the page parameter is the page's decimal
        numeral, so it reads back as that page. */
    method HandlePageChange(page: int)
      modifies this
      ensures params == old(params)["page" := IntToString(page)]
      ensures CurrentPage() == Some(page)
      ensures ResourceType() == old(ResourceType()) && Category() == old(Category())
      ensures Difficulty() == old(Difficulty())
      ensures allResources == old(allResources)
    {
      SelectedPage(params, page);
      params := params["page" := IntToString(page)];
    }
  }
}
