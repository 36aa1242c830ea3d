/** The resource service: joins resources with the user's progress records,
    fills in a missing id on a fetched record, and wraps the combined
    fetches (answering 404 for a missing resource and rethrowing failures
    with a prefix). The fetches themselves are outcomes supplied by the
    caller, in the order the code awaits them. */
module ResourceService {
  import opened Wrappers
  import opened Model
  import opened Seqs

  type Record = map<string, Json>

  /** The progress payload: an array of records or anything else. */
  datatype ProgressData = ProgressList(items: seq<Progress>) | NotAList

  /** `Array.isArray(data) ? data : []` */
  function ProgressListOf(d: ProgressData): (list: seq<Progress>)
    ensures d.NotAList? ==> list == []
    ensures d.ProgressList? ==> list == d.items
  {
    match d
    case ProgressList(items) => items
    case NotAList => []
  }

  function ForResourceId(id: string): Progress -> bool
  {
    (p: Progress) => p.resourceUid == id
  }

  /** `resourceWithProgress`: the resource's id, categories and difficulty
      and the resource itself, joined with the first progress record for
      that resource; without one, not completed, no attempts, no
      evaluation. */
  function ResourceWithProgressOf(resource: Resource, userProgress: Option<seq<Progress>>): (r: ResourceWithProgress)
    ensures r.id == resource.id && r.categories == resource.categories
    ensures r.difficulty == resource.difficulty && r.resource == resource
    ensures r.progress.Some? <==> userProgress.Some? && exists p :: p in userProgress.value && p.resourceUid == resource.id
    ensures r.progress.Some? ==>
      && r.progress.value in userProgress.value && r.progress.value.resourceUid == resource.id
      && r.isCompleted == r.progress.value.completed
      && r.attempts == r.progress.value.attempts
      && r.evaluation == Some(r.progress.value.evaluation)
    ensures r.progress.None? ==> !r.isCompleted && r.attempts == 0 && r.evaluation.None?
  {
    var found := if userProgress.Some? then Find(userProgress.value, ForResourceId(resource.id)) else None;
    assert userProgress.Some? && found.None? ==>
      forall p :: p in userProgress.value ==> !ForResourceId(resource.id)(p);
    match found
    case Some(p) =>
      ResourceWithProgress(resource.id, resource.categories, resource.difficulty, resource,
        p.completed, p.attempts, Some(p.evaluation), Some(p))
    case None =>
      ResourceWithProgress(resource.id, resource.categories, resource.difficulty, resource,
        false, 0, None, None)
  }

  /** When the user has several records for the resource, the earliest one
      is used. */
  lemma FirstRecordWins(resource: Resource, userProgress: seq<Progress>, i: nat)
    requires i < |userProgress| && userProgress[i].resourceUid == resource.id
    requires forall j :: 0 <= j < i ==> userProgress[j].resourceUid != resource.id
    ensures ResourceWithProgressOf(resource, Some(userProgress)).progress == Some(userProgress[i])
  {
    var found := Find(userProgress, ForResourceId(resource.id));
    assert ForResourceId(resource.id)(userProgress[i]);
    assert found.Some?;
    var k :| 0 <= k < |userProgress| && userProgress[k] == found.value && ForResourceId(resource.id)(userProgress[k])
      && forall j :: 0 <= j < k ==> !ForResourceId(resource.id)(userProgress[j]);
    assert k == i;
  }

  /** `resources.map(r => resourceWithProgress(r, progress))`: one entry per
      resource, in the same order. */
  function WithProgressAll(resources: seq<Resource>, userProgress: seq<Progress>): (rs: seq<ResourceWithProgress>)
    ensures |rs| == |resources|
    ensures forall i :: 0 <= i < |rs| ==> rs[i] == ResourceWithProgressOf(resources[i], Some(userProgress))
  {
    seq(|resources|, i requires 0 <= i < |resources| => ResourceWithProgressOf(resources[i], Some(userProgress)))
  }

  /** Joining never reorders or drops resources: the joined list's resources
      are the original list. */
  lemma WithProgressAllKeepsResources(resources: seq<Resource>, userProgress: seq<Progress>)
    ensures forall i :: 0 <= i < |resources| ==> WithProgressAll(resources, userProgress)[i].resource == resources[i]
    ensures forall i :: 0 <= i < |resources| ==> WithProgressAll(resources, userProgress)[i].id == resources[i].id
  {
  }

  /** The id injection of `getById`: a record without an "id" field gains the
      requested id; a record with one, and a missing record, are left as
      they are. */
  function InjectId(data: Option<Record>, id: string): (r: Option<Record>)
    ensures r.None? <==> data.None?
    ensures data.Some? && "id" in data.value ==> r == data
    ensures data.Some? && "id" !in data.value ==>
      && r.value.Keys == data.value.Keys + {"id"}
      && r.value["id"] == JString(id)
      && forall k :: k in data.value ==> r.value[k] == data.value[k]
  {
    match data
    case None => None
    case Some(fields) => if "id" in fields then data else Some(fields["id" := JString(id)])
  }

  /** After injection the record has an id, so a second injection (with any
      id) changes nothing. */
  lemma InjectIdIdempotent(data: Option<Record>, id: string, other: string)
    ensures InjectId(InjectId(data, id), other) == InjectId(data, id)
    ensures data.Some? ==> "id" in InjectId(data, id).value
  {
  }

  /** `getById` on the response envelope. */
  function GetById(response: ApiResponse<Option<Record>>, id: string): (r: ApiResponse<Option<Record>>)
    ensures r.status == response.status && r.message == response.message
    ensures r.data == InjectId(response.data, id)
  {
    response.(data := InjectId(response.data, id))
  }

  function NotFound(id: string): string
  {
    "Resource with ID '" + id + "' not found"
  }

  /** The rethrown message embeds the inner error as `${error}` renders
      it, class name first: a failed fetch (a `TypeError` "Failed to
      fetch") reads "...: TypeError: Failed to fetch", an API error
      "...: Error: API error! ...". */
  lemma RethrowNamesTheError(progress: Outcome<ApiResponse<ProgressData>>, name: string, message: string)
    requires name != "" && message != ""
    ensures GetAllWithProgress(Throw(ErrorObject(name, message)), progress)
      == Throw(ErrorObject("Error", "Failed to load resources with progress: " + (name + ": " + message)))
  {
    assert Describe(ErrorObject(name, message)) == name + ": " + message;
  }

  /** `getAllWithProgress`: resources first, then the user's progress; any
      failure is rethrown as "Failed to load resources with progress: ...". */
  function GetAllWithProgress(
    resources: Outcome<ApiResponse<seq<Resource>>>, progress: Outcome<ApiResponse<ProgressData>>)
    : (r: Outcome<ApiResponse<seq<ResourceWithProgress>>>)
    ensures r.Ok? <==> resources.Ok? && progress.Ok?
    ensures resources.Throw? ==>
      r == Throw(ErrorObject("Error", "Failed to load resources with progress: " + Describe(resources.thrown)))
    ensures resources.Ok? && progress.Throw? ==>
      r == Throw(ErrorObject("Error", "Failed to load resources with progress: " + Describe(progress.thrown)))
    ensures r.Ok? ==>
      && r.value.status == 200
      && r.value.message == "Resources with progress loaded successfully"
      && r.value.data == WithProgressAll(resources.value.data, ProgressListOf(progress.value.data))
  {
    if resources.Throw? then
      Throw(ErrorObject("Error", "Failed to load resources with progress: " + Describe(resources.thrown)))
    else if progress.Throw? then
      Throw(ErrorObject("Error", "Failed to load resources with progress: " + Describe(progress.thrown)))
    else
      Ok(ApiResponse(
        WithProgressAll(resources.value.data, ProgressListOf(progress.value.data)),
        200, "Resources with progress loaded successfully"))
  }

  /** `getByCategoryWithProgress`: the resource (by its id) and the user's
      record for it are fetched together; a missing resource answers 404,
      otherwise the resource is joined with that one record, if any. */
  function GetByCategoryWithProgress(
    resourceUid: string,
    resource: Outcome<ApiResponse<Option<Resource>>>, progress: Outcome<ApiResponse<Option<Progress>>>)
    : (r: Outcome<ApiResponse<Option<ResourceWithProgress>>>)
    ensures r.Ok? <==> resource.Ok? && progress.Ok?
    ensures r.Throw? ==>
      r.thrown.ErrorObject? && r.thrown.message ==
        "Failed to load resource with progress: "
          + Describe(if resource.Throw? then resource.thrown else progress.thrown)
    ensures r.Ok? ==> (r.value.status == 404 <==> resource.value.data.None?)
    ensures r.Ok? && resource.value.data.None? ==>
      r.value == ApiResponse(None, 404, NotFound(resourceUid))
    ensures r.Ok? && resource.value.data.Some? ==>
      && r.value.status == 200
      && r.value.data == Some(ResourceWithProgressOf(resource.value.data.value,
           Some(if progress.value.data.Some? then [progress.value.data.value] else [])))
      && r.value.message == "Resource with ID '" + resourceUid + "' and progress loaded successfully"
  {
    if resource.Throw? then
      Throw(ErrorObject("Error", "Failed to load resource with progress: " + Describe(resource.thrown)))
    else if progress.Throw? then
      Throw(ErrorObject("Error", "Failed to load resource with progress: " + Describe(progress.thrown)))
    else if resource.value.data.None? then
      Ok(ApiResponse(None, 404, NotFound(resourceUid)))
    else
      var records := if progress.value.data.Some? then [progress.value.data.value] else [];
      Ok(ApiResponse(
        Some(ResourceWithProgressOf(resource.value.data.value, Some(records))),
        200, "Resource with ID '" + resourceUid + "' and progress loaded successfully"))
  }

  /** `getByDifficultyWithProgress`: as `getAllWithProgress`, over the
      resources of one difficulty. */
  function GetByDifficultyWithProgress(
    difficulty: string,
    resources: Outcome<ApiResponse<seq<Resource>>>, progress: Outcome<ApiResponse<ProgressData>>)
    : (r: Outcome<ApiResponse<seq<ResourceWithProgress>>>)
    ensures r.Ok? <==> resources.Ok? && progress.Ok?
    ensures resources.Throw? ==>
      r == Throw(ErrorObject("Error", "Failed to load difficulty resources with progress: " + Describe(resources.thrown)))
    ensures resources.Ok? && progress.Throw? ==>
      r == Throw(ErrorObject("Error", "Failed to load difficulty resources with progress: " + Describe(progress.thrown)))
    ensures r.Ok? ==>
      && r.value.status == 200
      && r.value.data == WithProgressAll(resources.value.data, ProgressListOf(progress.value.data))
      && r.value.message == "Resources with difficulty '" + difficulty + "' and progress loaded successfully"
  {
    if resources.Throw? then
      Throw(ErrorObject("Error", "Failed to load difficulty resources with progress: " + Describe(resources.thrown)))
    else if progress.Throw? then
      Throw(ErrorObject("Error", "Failed to load difficulty resources with progress: " + Describe(progress.thrown)))
    else
      Ok(ApiResponse(
        WithProgressAll(resources.value.data, ProgressListOf(progress.value.data)),
        200, "Resources with difficulty '" + difficulty + "' and progress loaded successfully"))
  }

  /** `getByIdWithProgress`: the resource first; a missing one answers 404
      before the progress is fetched (so a progress failure then does not
      matter); otherwise it is joined with the user's progress list. */
  function GetByIdWithProgress(
    id: string,
    resource: Outcome<ApiResponse<Option<Resource>>>, progress: Outcome<ApiResponse<ProgressData>>)
    : (r: Outcome<ApiResponse<Option<ResourceWithProgress>>>)
    ensures resource.Throw? ==>
      r == Throw(ErrorObject("Error", "Failed to load resource with progress: " + Describe(resource.thrown)))
    ensures resource.Ok? && resource.value.data.None? ==>
      r == Ok(ApiResponse(None, 404, NotFound(id)))
    ensures resource.Ok? && resource.value.data.Some? && progress.Throw? ==>
      r == Throw(ErrorObject("Error", "Failed to load resource with progress: " + Describe(progress.thrown)))
    ensures r.Ok? <==> resource.Ok? && (resource.value.data.None? || progress.Ok?)
    ensures r.Ok? ==> (r.value.data.Some? <==> resource.value.data.Some?)
    ensures r.Ok? && r.value.data.Some? ==>
      && r.value.status == 200
      && r.value.data.value == ResourceWithProgressOf(resource.value.data.value,
           Some(ProgressListOf(progress.value.data)))
      && r.value.message == "Resource with ID '" + id + "' and progress loaded successfully"
  {
    if resource.Throw? then
      Throw(ErrorObject("Error", "Failed to load resource with progress: " + Describe(resource.thrown)))
    else if resource.value.data.None? then
      Ok(ApiResponse(None, 404, NotFound(id)))
    else if progress.Throw? then
      Throw(ErrorObject("Error", "Failed to load resource with progress: " + Describe(progress.thrown)))
    else
      Ok(ApiResponse(
        Some(ResourceWithProgressOf(resource.value.data.value, Some(ProgressListOf(progress.value.data)))),
        200, "Resource with ID '" + id + "' and progress loaded successfully"))
  }
}
