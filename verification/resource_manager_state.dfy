/** The resource browser that keeps its selections in component state:
    type, category, difficulty and page are fields, a change of category
    or difficulty sends the page back to 1, and a successful load does
    too. */
module StateResourceManager {
  import opened Wrappers
  import opened Model
  import opened Browsing
  import ResourceUtils
  import UrlResourceManager

  class ResourceManager {
    const userId: Option<string>
    var resourceType: string
    var category: string
    var difficulty: string
    var currentPage: int
    var allResources: seq<ResourceWithProgress>

    /** The initial state: words, every category, every difficulty, page
        1, nothing loaded. */
    constructor (userId: Option<string>)
      ensures this.userId == userId
      ensures resourceType == "words" && category == "all" && difficulty == "all"
      ensures currentPage == 1 && allResources == []
    {
      this.userId := userId;
      resourceType, category, difficulty := "words", "all", "all";
      currentPage := 1;
      allResources := [];
    }

    function CapitalizedResourceType(): string
      reads this
    {
      ResourceUtils.CapitalizeFirstLetter(resourceType)
    }

    function FilteredResources(): seq<ResourceWithProgress>
      reads this
    {
      Filter(allResources, category, difficulty)
    }

    /** The current page of the filtered list: at most ten resources, each
        of them kept by the filter. */
    function PaginatedResources(): (page: seq<ResourceWithProgress>)
      reads this
      ensures |page| <= ItemsPerPage
      ensures forall r :: r in page ==> r in allResources && Keeps(r, category, difficulty)
    {
      var filtered := FilteredResources();
      PageWithin(filtered, Some(currentPage));
      Page(filtered, Some(currentPage))
    }

    function TotalPageCount(): nat
      reads this
    {
      TotalPages(|FilteredResources()|)
    }

    /** The load effect: without a user nothing is fetched; a fetched list
        (or [] for none) replaces the resources and the page goes back to
        1; a failed fetch empties the list and leaves the page. */
    method LoadResources(result: Outcome<Option<seq<ResourceWithProgress>>>) returns (ghost fetched: bool)
      modifies this
      ensures fetched <==> Truthy(userId)
      ensures !fetched ==> allResources == old(allResources) && currentPage == old(currentPage)
      ensures fetched ==> allResources == UrlResourceManager.LoadedList(result)
      ensures fetched ==> currentPage == if result.Ok? then 1 else old(currentPage)
      ensures resourceType == old(resourceType) && category == old(category) && difficulty == old(difficulty)
    {
      if !Truthy(userId) {
        return false;
      }
      fetched := true;
      match result {
        case Ok(list) =>
          allResources := if list.Some? then list.value else [];
          currentPage := 1;
        case Throw(_) =>
          allResources := [];
      }
    }

    /** `handleResourceTypeChange`: the new type on page 1 with every
        category and every difficulty. */
    method HandleResourceTypeChange(newType: string)
      modifies this
      ensures resourceType == newType && currentPage == 1
      ensures category == "all" && difficulty == "all"
      ensures allResources == old(allResources)
    {
      resourceType := newType;
      currentPage := 1;
      category := "all";
      difficulty := "all";
    }

    /** `handleCategoryChange` followed by the page-reset effect, which
        runs when the category value actually changes. */
    method HandleCategoryChange(newCategory: string)
      modifies this
      ensures category == NextSelection(old(category), newCategory)
      ensures currentPage == if category != old(category) then 1 else old(currentPage)
      ensures resourceType == old(resourceType) && difficulty == old(difficulty)
      ensures allResources == old(allResources)
    {
      var next := NextSelection(category, newCategory);
      if next != category {
        currentPage := 1;
      }
      category := next;
    }

    /** `handleDifficultyChange` followed by the page-reset effect, which
        runs when the difficulty value actually changes. */
    method HandleDifficultyChange(newDifficulty: string)
      modifies this
      ensures difficulty == NextSelection(old(difficulty), newDifficulty)
      ensures currentPage == if difficulty != old(difficulty) then 1 else old(currentPage)
      ensures resourceType == old(resourceType) && category == old(category)
      ensures allResources == old(allResources)
    {
      var next := NextSelection(difficulty, newDifficulty);
      if next != difficulty {
        currentPage := 1;
      }
      difficulty := next;
    }

    /** `handlePageChange` is the page setter. */
    method HandlePageChange(page: int)
      modifies this
      ensures currentPage == page
      ensures resourceType == old(resourceType) && category == old(category) && difficulty == old(difficulty)
      ensures allResources == old(allResources)
    {
      currentPage := page;
    }
  }

  /** The chip rule changes the selection except when "all" is chosen
      while "all" is selected, so the page reset follows every click but
      that one. */
  lemma SelectionChangesUnlessAllTwice(current: string, chosen: string)
    ensures NextSelection(current, chosen) == current <==> current == "all" && chosen == "all"
  {
  }
}
