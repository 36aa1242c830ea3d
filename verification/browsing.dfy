/** The browsing logic shared by both resource managers: the category and
    difficulty filter, the pages of ten, the category and difficulty
    counts, and the select-or-clear rule of the filter chips. */
module Browsing {
  import opened Wrappers
  import opened Text
  import opened Model

  /** `ITEMS_PER_PAGE` */
  const ItemsPerPage: nat := 10

  // ---------------------------------------------------------------------
  // Filter
  // ---------------------------------------------------------------------

  /** "all", or one of the resource's categories equal to the selection up
      to case. */
  predicate CategoryMatches(r: ResourceWithProgress, category: string)
  {
    category == "all" || exists c :: c in r.categories && EqualsIgnoreCase(c, category)
  }

  /** "all", or the resource's difficulty as a string equals the selection. */
  predicate DifficultyMatches(r: ResourceWithProgress, difficulty: string)
  {
    difficulty == "all" || r.difficulty == difficulty
  }

  predicate Keeps(r: ResourceWithProgress, category: string, difficulty: string)
  {
    CategoryMatches(r, category) && DifficultyMatches(r, difficulty)
  }

  /** `filteredResources`: exactly the resources that match both
      selections. */
  function Filter(xs: seq<ResourceWithProgress>, category: string, difficulty: string)
    : (ys: seq<ResourceWithProgress>)
    ensures |ys| <= |xs|
    ensures forall y :: y in ys ==> y in xs && Keeps(y, category, difficulty)
    ensures forall x :: x in xs && Keeps(x, category, difficulty) ==> x in ys
  {
    if xs == [] then []
    else
      var rest := Filter(xs[1..], category, difficulty);
      if Keeps(xs[0], category, difficulty) then [xs[0]] + rest else rest
  }

  /** Filtering distributes over concatenation, so the kept resources keep
      their relative order. */
  lemma {:induction false} FilterAppend(xs: seq<ResourceWithProgress>, ys: seq<ResourceWithProgress>, category: string, difficulty: string)
    ensures Filter(xs + ys, category, difficulty) == Filter(xs, category, difficulty) + Filter(ys, category, difficulty)
  {
    if xs != [] {
      var z := xs + ys;
      assert z != [] && z[0] == xs[0] && z[1..] == xs[1..] + ys;
      FilterAppend(xs[1..], ys, category, difficulty);
    } else {
      assert xs + ys == ys;
    }
  }

  /** With both selections "all" nothing is dropped. */
  lemma {:induction false} FilterAllKeepsEverything(xs: seq<ResourceWithProgress>)
    ensures Filter(xs, "all", "all") == xs
  {
    if xs != [] {
      FilterAllKeepsEverything(xs[1..]);
    }
  }

  /** Filtering a filtered list again changes nothing. */
  lemma {:induction false} FilterIdempotent(xs: seq<ResourceWithProgress>, category: string, difficulty: string)
    ensures Filter(Filter(xs, category, difficulty), category, difficulty) == Filter(xs, category, difficulty)
  {
    if xs != [] {
      FilterIdempotent(xs[1..], category, difficulty);
    }
  }

  // ---------------------------------------------------------------------
  // Pages
  // ---------------------------------------------------------------------

  /** How `Array.prototype.slice` reads an index: a negative one counts
      from the end, and the result is clamped to [0, len]. */
  function SliceIndex(i: int, len: nat): (k: nat)
    ensures k <= len
    ensures 0 <= i ==> k == if i <= len then i else len
    ensures i < 0 ==> k == if len + i >= 0 then len + i else 0
  {
    if i < 0 then (if len + i >= 0 then len + i else 0)
    else if i > len then len
    else i
  }

  /** `xs.slice(start, end)` */
  function Slice<T>(xs: seq<T>, start: int, end: int): (r: seq<T>)
    ensures |r| <= |xs|
  {
    var from := SliceIndex(start, |xs|);
    var to := SliceIndex(end, |xs|);
    if from < to then xs[from..to] else []
  }

  /** `paginatedResources` for the page number `page`; None is NaN (an
      unreadable page parameter), which slices nothing. */
  function Page<T>(xs: seq<T>, page: Option<int>): (r: seq<T>)
    ensures |r| <= ItemsPerPage
    ensures page.None? ==> r == []
    ensures page.Some? && page.value >= 1 ==>
      var start := (page.value - 1) * ItemsPerPage;
      r == xs[Min(start, |xs|)..Min(start + ItemsPerPage, |xs|)]
  {
    match page
    case None => Slice(xs, 0, 0)
    case Some(p) => Slice(xs, (p - 1) * ItemsPerPage, (p - 1) * ItemsPerPage + ItemsPerPage)
  }

  function Min(a: int, b: int): int
  {
    if a <= b then a else b
  }

  /** A slice of a list holds elements of that list. */
  lemma SliceWithin<T>(xs: seq<T>, start: int, end: int)
    ensures forall x :: x in Slice(xs, start, end) ==> x in xs
  {
    var from := SliceIndex(start, |xs|);
    var to := SliceIndex(end, |xs|);
    forall x | x in Slice(xs, start, end) ensures x in xs {
      var i :| 0 <= i < |Slice(xs, start, end)| && Slice(xs, start, end)[i] == x;
      assert from < to && x == xs[from + i];
    }
  }

  /** A page of a list holds elements of that list. */
  lemma PageWithin<T>(xs: seq<T>, page: Option<int>)
    ensures forall x :: x in Page(xs, page) ==> x in xs
  {
    match page {
      case None =>
      case Some(p) =>
        SliceWithin(xs, (p - 1) * ItemsPerPage, (p - 1) * ItemsPerPage + ItemsPerPage);
    }
  }

  /** `Math.ceil(len / ITEMS_PER_PAGE)`: the fewest pages of ten that hold
      `len` items. */
  function TotalPages(len: nat): (n: nat)
    ensures n * ItemsPerPage >= len
    ensures n == 0 || (n - 1) * ItemsPerPage < len
  {
    (len + ItemsPerPage - 1) / ItemsPerPage
  }

  /** Pages 1 to `k` one after another. */
  function PagesUpTo<T>(xs: seq<T>, k: nat): seq<T>
  {
    if k == 0 then [] else PagesUpTo(xs, k - 1) + Page(xs, Some(k))
  }

  /** The first `k` pages are the first `k` tens of the list. */
  lemma {:induction false} PagesUpToPrefix<T>(xs: seq<T>, k: nat)
    ensures PagesUpTo(xs, k) == xs[..Min(k * ItemsPerPage, |xs|)]
  {
    if k > 0 {
      PagesUpToPrefix(xs, k - 1);
      PageK(xs, k);
      PrefixThenSlice(xs, Min((k - 1) * ItemsPerPage, |xs|), Min(k * ItemsPerPage, |xs|));
    }
  }

  /** Page `k` is the `k`-th ten of the list. */
  lemma PageK<T>(xs: seq<T>, k: nat)
    requires k >= 1
    ensures Min((k - 1) * ItemsPerPage, |xs|) <= Min(k * ItemsPerPage, |xs|)
    ensures Page(xs, Some(k)) == xs[Min((k - 1) * ItemsPerPage, |xs|)..Min(k * ItemsPerPage, |xs|)]
  {
    assert (k - 1) * ItemsPerPage + ItemsPerPage == k * ItemsPerPage;
  }

  lemma PrefixThenSlice<T>(xs: seq<T>, a: nat, b: nat)
    requires a <= b <= |xs|
    ensures xs[..a] + xs[a..b] == xs[..b]
  {
  }

  /** Pages 1 to `totalPages` together are the whole list, each item once
      and in order. */
  lemma PagesCoverList<T>(xs: seq<T>)
    ensures PagesUpTo(xs, TotalPages(|xs|)) == xs
  {
    PagesUpToPrefix(xs, TotalPages(|xs|));
  }

  /** A page after the last one is empty. */
  lemma PageBeyondEnd<T>(xs: seq<T>, p: int)
    requires p > TotalPages(|xs|)
    ensures Page(xs, Some(p)) == []
  {
  }

  // ---------------------------------------------------------------------
  // Category counts
  // ---------------------------------------------------------------------

  datatype CategoryCount = CategoryCount(name: string, count: nat)

  /** The trimmed, non-empty entries of one category list, in order. */
  function CategoryEntries(cats: seq<string>): (es: seq<string>)
    ensures forall e :: e in es ==> e != ""
  {
    if cats == [] then []
    else
      var t := Trim(cats[|cats| - 1]);
      CategoryEntries(cats[..|cats| - 1]) + (if t != "" then [t] else [])
  }

  /** The trimmed, non-empty category entries of all resources, in order. */
  function AllEntries(rs: seq<ResourceWithProgress>): (es: seq<string>)
    ensures forall e :: e in es ==> e != ""
  {
    if rs == [] then [] else AllEntries(rs[..|rs| - 1]) + CategoryEntries(rs[|rs| - 1].categories)
  }

  predicate Distinct(s: seq<string>)
  {
    forall i, j :: 0 <= i < j < |s| ==> s[i] != s[j]
  }

  predicate StrictlySorted(s: seq<string>)
  {
    forall i, j :: 0 <= i < j < |s| ==> LexLess(s[i], s[j])
  }

  /** Inserting a name into a list of names, before the first name it
      precedes. */
  function Insert(s: seq<string>, x: string): (r: seq<string>)
    ensures multiset(r) == multiset(s) + multiset{x}
  {
    if s == [] then [x]
    else if LexLess(x, s[0]) then [x] + s
    else
      assert s == [s[0]] + s[1..];
      [s[0]] + Insert(s[1..], x)
  }

  /** Inserting a new name into a sorted list keeps it sorted. */
  lemma {:induction false} InsertSorted(s: seq<string>, x: string)
    requires StrictlySorted(s) && x !in s
    ensures StrictlySorted(Insert(s, x))
  {
    if s == [] {
    } else if LexLess(x, s[0]) {
      forall e | e in s ensures LexLess(x, e) {
        var j :| 0 <= j < |s| && s[j] == e;
        if j > 0 {
          LexLessTransitive(x, s[0], s[j]);
        }
      }
      ConsSorted(x, s);
    } else {
      LexLessTotal(x, s[0]);
      var rest := Insert(s[1..], x);
      assert s == [s[0]] + s[1..];
      InsertSorted(s[1..], x);
      forall e | e in rest ensures LexLess(s[0], e) {
        assert e in multiset(rest);
      }
      ConsSorted(s[0], rest);
    }
  }

  /** A name below every name of a sorted list can go in front of it. */
  lemma ConsSorted(h: string, rest: seq<string>)
    requires StrictlySorted(rest)
    requires forall e :: e in rest ==> LexLess(h, e)
    ensures StrictlySorted([h] + rest)
  {
    var s := [h] + rest;
    forall i, j | 0 <= i < j < |s| ensures LexLess(s[i], s[j]) {
      assert s[j] == rest[j - 1];
      if i > 0 {
        assert s[i] == rest[i - 1];
      }
    }
  }

  /** The names in ascending order (the `sort` by name; names are
      distinct, so the order is unique). */
  function SortNames(s: seq<string>): (r: seq<string>)
    requires Distinct(s)
    ensures StrictlySorted(r) && multiset(r) == multiset(s)
  {
    if s == [] then []
    else
      var init := s[..|s| - 1];
      var sorted := SortNames(init);
      assert s == init + [s[|s| - 1]];
      assert s[|s| - 1] !in multiset(sorted);
      InsertSorted(sorted, s[|s| - 1]);
      Insert(sorted, s[|s| - 1])
  }

  /** The sum of the multiplicities in `m` of the names in `names`. */
  function SumOver(names: seq<string>, m: multiset<string>): nat
  {
    if names == [] then 0 else SumOver(names[..|names| - 1], m) + m[names[|names| - 1]]
  }

  lemma {:induction false} SumOverAddOne(names: seq<string>, m: multiset<string>, e: string)
    requires Distinct(names)
    ensures SumOver(names, m + multiset{e}) == SumOver(names, m) + (if e in names then 1 else 0)
  {
    if names != [] {
      var init := names[..|names| - 1];
      assert names == init + [names[|names| - 1]];
      SumOverAddOne(init, m, e);
    }
  }

  /** Counting every entry under its own name, with every name listed
      once, accounts for all the entries. */
  lemma {:induction false} SumOverCoversAll(names: seq<string>, entries: seq<string>)
    requires Distinct(names)
    requires forall e :: e in entries ==> e in names
    ensures SumOver(names, multiset(entries)) == |entries|
  {
    if entries == [] {
      SumOverEmpty(names);
    } else {
      var init := entries[..|entries| - 1];
      var e := entries[|entries| - 1];
      assert entries == init + [e];
      SumOverCoversAll(names, init);
      SumOverAddOne(names, multiset(init), e);
    }
  }

  lemma {:induction false} SumOverEmpty(names: seq<string>)
    ensures SumOver(names, multiset{}) == 0
  {
    if names != [] {
      SumOverEmpty(names[..|names| - 1]);
    }
  }

  /** The counts accumulated so far describe `entries`: one key per
      distinct entry, with its multiplicity, and `order` lists the keys
      once each. */
  ghost predicate Tallied(counts: map<string, nat>, order: seq<string>, entries: seq<string>)
  {
    && (forall k :: k in counts <==> k in entries)
    && (forall k :: k in counts ==> counts[k] == multiset(entries)[k])
    && (forall k :: k in order <==> k in counts)
    && Distinct(order)
  }

  function Total(r: seq<CategoryCount>): nat
  {
    if r == [] then 0 else Total(r[..|r| - 1]) + r[|r| - 1].count
  }

  /** `categoryMap.set(t, (categoryMap.get(t) || 0) + 1)`, with the
      insertion order of the map's keys alongside. */
  function AddEntry(counts: map<string, nat>, order: seq<string>, t: string): (map<string, nat>, seq<string>)
  {
    if t in counts then (counts[t := counts[t] + 1], order) else (counts[t := 1], order + [t])
  }

  /** Counting one more entry keeps the tally. */
  lemma TalliedStep(counts: map<string, nat>, order: seq<string>, entries: seq<string>, t: string)
    requires Tallied(counts, order, entries)
    ensures Tallied(AddEntry(counts, order, t).0, AddEntry(counts, order, t).1, entries + [t])
  {
    assert multiset(entries + [t]) == multiset(entries) + multiset{t};
    assert forall k :: k in entries + [t] <==> k in entries || k == t;
  }

  lemma CategoryEntriesSnoc(entries: seq<string>, cats: seq<string>, j: nat)
    requires j < |cats|
    ensures Trim(cats[j]) != "" ==>
      entries + CategoryEntries(cats[..j + 1]) == entries + CategoryEntries(cats[..j]) + [Trim(cats[j])]
    ensures Trim(cats[j]) == "" ==>
      entries + CategoryEntries(cats[..j + 1]) == entries + CategoryEntries(cats[..j])
  {
    assert cats[..j + 1][..j] == cats[..j];
  }

  /** One category of the inner `forEach`: a trimmed, non-empty entry is
      counted, anything else skipped. */
  function CountCategory(counts: map<string, nat>, order: seq<string>, cat: string): (map<string, nat>, seq<string>)
  {
    var t := Trim(cat);
    if t != "" then AddEntry(counts, order, t) else (counts, order)
  }

  lemma CountCategoryTallies(counts: map<string, nat>, order: seq<string>, entries: seq<string>, cats: seq<string>, j: nat)
    requires j < |cats|
    requires Tallied(counts, order, entries + CategoryEntries(cats[..j]))
    ensures var (c, o) := CountCategory(counts, order, cats[j]);
      Tallied(c, o, entries + CategoryEntries(cats[..j + 1]))
  {
    CategoryEntriesSnoc(entries, cats, j);
    if Trim(cats[j]) != "" {
      TalliedStep(counts, order, entries + CategoryEntries(cats[..j]), Trim(cats[j]));
    }
  }

  /** The inner `forEach` over one resource's categories. */
  method TallyCategories(counts0: map<string, nat>, order0: seq<string>, ghost entries: seq<string>, cats: seq<string>)
    returns (counts: map<string, nat>, order: seq<string>)
    requires Tallied(counts0, order0, entries)
    ensures Tallied(counts, order, entries + CategoryEntries(cats))
  {
    counts, order := counts0, order0;
    var j := 0;
    while j < |cats|
      invariant 0 <= j <= |cats|
      invariant Tallied(counts, order, entries + CategoryEntries(cats[..j]))
    {
      CountCategoryTallies(counts, order, entries, cats, j);
      counts, order := CountCategory(counts, order, cats[j]).0, CountCategory(counts, order, cats[j]).1;
      j := j + 1;
    }
    assert cats[..|cats|] == cats;
  }

  /** Sorting the tallied names and pairing each with its count gives the
      result `categoriesWithCount` promises. */
  lemma SortedCounts(counts: map<string, nat>, order: seq<string>, entries: seq<string>, r: seq<CategoryCount>)
    requires Tallied(counts, order, entries)
    requires var names := SortNames(order);
      && |r| == |names|
      && forall i :: 0 <= i < |r| ==> r[i].name == names[i] && names[i] in counts && r[i].count == counts[names[i]]
    ensures StrictlySorted(seq(|r|, i requires 0 <= i < |r| => r[i].name))
    ensures forall name :: name in entries <==> exists i :: 0 <= i < |r| && r[i].name == name
    ensures forall i :: 0 <= i < |r| ==> r[i].count == multiset(entries)[r[i].name]
    ensures Total(r) == |entries|
  {
    var names := SortNames(order);
    SortNamesSameMembers(order);
    assert seq(|r|, i requires 0 <= i < |r| => r[i].name) == names;
    forall name | name in entries ensures exists i :: 0 <= i < |r| && r[i].name == name {
      var i :| 0 <= i < |names| && names[i] == name;
      assert r[i].name == name;
    }
    TotalIsSumOver(r, names, multiset(entries));
    SortedIsDistinct(names);
    SumOverCoversAll(names, entries);
  }

  /** Sorting keeps exactly the same names. */
  lemma SortNamesSameMembers(order: seq<string>)
    requires Distinct(order)
    ensures forall k :: k in SortNames(order) <==> k in order
  {
    var names := SortNames(order);
    forall k ensures k in names <==> k in order {
      assert k in names <==> k in multiset(names);
      assert k in order <==> k in multiset(order);
    }
  }

  /** A strictly sorted list has no repeated name. */
  lemma SortedIsDistinct(names: seq<string>)
    requires StrictlySorted(names)
    ensures Distinct(names)
  {
    forall a, b | 0 <= a < b < |names| ensures names[a] != names[b] {
      LexLessIrreflexive(names[a]);
    }
  }

  /** `categoriesWithCount`: one entry per distinct trimmed, non-empty
      category, counting its occurrences over all resources, sorted by
      name; the counts add up to the number of such entries. */
  method CategoriesWithCount(resources: seq<ResourceWithProgress>) returns (r: seq<CategoryCount>)
    ensures StrictlySorted(seq(|r|, i requires 0 <= i < |r| => r[i].name))
    ensures forall name :: name in AllEntries(resources) <==> exists i :: 0 <= i < |r| && r[i].name == name
    ensures forall i :: 0 <= i < |r| ==> r[i].count == multiset(AllEntries(resources))[r[i].name]
    ensures Total(r) == |AllEntries(resources)|
  {
    var counts, order := TallyAll(resources);
    var names := SortNames(order);
    SortNamesSameMembers(order);
    r := seq(|names|, i requires 0 <= i < |names| => CategoryCount(names[i], counts[names[i]]));
    SortedCounts(counts, order, AllEntries(resources), r);
  }

  /** The tally loop of `categoriesWithCount`: every resource's categories
      counted, first-seen order kept. */
  method TallyAll(resources: seq<ResourceWithProgress>) returns (counts: map<string, nat>, order: seq<string>)
    ensures Tallied(counts, order, AllEntries(resources))
  {
    counts, order := map[], [];
    var i := 0;
    while i < |resources|
      invariant 0 <= i <= |resources|
      invariant Tallied(counts, order, AllEntries(resources[..i]))
    {
      assert resources[..i + 1][..i] == resources[..i];
      counts, order := TallyCategories(counts, order, AllEntries(resources[..i]), resources[i].categories);
      i := i + 1;
    }
    assert resources[..|resources|] == resources;
  }

  lemma {:induction false} TotalIsSumOver(r: seq<CategoryCount>, names: seq<string>, m: multiset<string>)
    requires |r| == |names|
    requires forall i :: 0 <= i < |r| ==> r[i].name == names[i] && r[i].count == m[names[i]]
    ensures Total(r) == SumOver(names, m)
  {
    if r != [] {
      TotalIsSumOver(r[..|r| - 1], names[..|names| - 1], m);
    }
  }

  // ---------------------------------------------------------------------
  // Difficulty counts
  // ---------------------------------------------------------------------

  const DifficultyKeys: set<string> := {"0", "1", "2"}

  /** The number of resources whose difficulty reads `key`. */
  function Tally(rs: seq<ResourceWithProgress>, key: string): (n: nat)
    ensures n <= |rs|
  {
    if rs == [] then 0
    else Tally(rs[..|rs| - 1], key) + (if rs[|rs| - 1].difficulty == key then 1 else 0)
  }

  /** A resource has one difficulty, so the three counts together never
      exceed the number of resources. */
  lemma {:induction false} TallySumBound(rs: seq<ResourceWithProgress>)
    ensures Tally(rs, "0") + Tally(rs, "1") + Tally(rs, "2") <= |rs|
  {
    if rs != [] {
      TallySumBound(rs[..|rs| - 1]);
    }
  }

  /** `difficultyCounts`: exactly the keys "0", "1" and "2", each with the
      number of resources of that difficulty; other difficulties are not
      counted. */
  method DifficultyCounts(resources: seq<ResourceWithProgress>) returns (counts: map<string, nat>)
    ensures counts.Keys == DifficultyKeys
    ensures forall k :: k in counts ==> counts[k] == Tally(resources, k)
  {
    counts := map["0" := 0, "1" := 0, "2" := 0];
    var i := 0;
    while i < |resources|
      invariant 0 <= i <= |resources|
      invariant counts.Keys == DifficultyKeys
      invariant forall k :: k in counts ==> counts[k] == Tally(resources[..i], k)
    {
      var key := resources[i].difficulty;
      assert resources[..i + 1][..i] == resources[..i];
      if key in counts {
        counts := counts[key := counts[key] + 1];
      }
      i := i + 1;
    }
    assert resources[..i] == resources;
  }

  // ---------------------------------------------------------------------
  // Filter chips
  // ---------------------------------------------------------------------

  /** Selecting the chip already selected clears the filter to "all";
      any other chip becomes the selection. */
  function NextSelection(current: string, chosen: string): (next: string)
    ensures next == "all" <==> current == chosen || chosen == "all"
    ensures next != "all" ==> next == chosen
  {
    if current == chosen then "all" else chosen
  }

  /** Choosing a chip other than the selected one, and then choosing it
      again, selects it and then clears the filter. */
  lemma ChooseTwiceClears(current: string, chosen: string)
    requires current != chosen
    ensures NextSelection(current, chosen) == chosen
    ensures NextSelection(NextSelection(current, chosen), chosen) == "all"
  {
  }
}
