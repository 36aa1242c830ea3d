/** The generic data hook behind the words, sentences and texts hooks:
    every getter runs its service call through `handleAsync`, which raises
    `loading` and clears `error` around the call, stores the response's
    data on success, records the error message on failure and rethrows.
    The service responses are inputs. */
module GenericResource {
  import opened Wrappers
  import opened Model

  const UnexpectedError: string := "An unexpected error occurred"

  /** What the `dataWithProgress` state holds: normally a joined list, but
      `getByCategoryWithProgress` stores the single record (or null) its
      service call answers. */
  datatype StoredWithProgress =
    | JoinedList(items: seq<ResourceWithProgress>)
    | SingleValue(value: Option<ResourceWithProgress>)

  class ResourceHook {
    var data: seq<Resource>
    var dataWithProgress: StoredWithProgress
    var loading: bool
    var error: Option<string>
    var singleItem: Option<Resource>
    var singleResourceWithProgress: Option<ResourceWithProgress>

    /** Nothing loaded, not loading, no error. */
    constructor ()
      ensures data == [] && dataWithProgress == JoinedList([]) && !loading && error.None?
      ensures singleItem.None? && singleResourceWithProgress.None?
    {
      data, dataWithProgress := [], JoinedList([]);
      loading, error := false, None;
      singleItem, singleResourceWithProgress := None, None;
    }

    /** `handleAsync` around an awaited call with outcome `call`. While the
        call is pending `loading` is up and `error` is null (`pending`);
        afterwards `loading` is down, a failure has recorded its message
        (or the fallback) and is passed on, and a success is returned for
        the caller's `onSuccess`, which runs exactly when it is Ok. */
    method HandleAsync<R>(call: Outcome<R>) returns (r: Outcome<R>, ghost pending: (bool, Option<string>))
      modifies this
      ensures pending == (true, None)
      ensures r == call
      ensures !loading
      ensures error == if call.Ok? then None else Some(MessageOr(call.thrown, UnexpectedError))
      ensures data == old(data) && dataWithProgress == old(dataWithProgress)
      ensures singleItem == old(singleItem) && singleResourceWithProgress == old(singleResourceWithProgress)
    {
      loading := true;
      error := None;
      pending := (loading, error);
      match call {
        case Ok(_) =>
        case Throw(t) =>
          error := Some(MessageOr(t, UnexpectedError));
      }
      r := call;
      loading := false;
    }

    /** `getAll` (and `getByCategory`, `getByDifficulty`, which differ only
        in the service call): a success stores and returns the list. */
    method GetAll(call: Outcome<ApiResponse<seq<Resource>>>) returns (r: Outcome<seq<Resource>>)
      modifies this
      ensures !loading
      ensures call.Ok? ==> r == Ok(call.value.data) && data == call.value.data && error.None?
      ensures call.Throw? ==>
        r == Throw(call.thrown) && data == old(data) && error == Some(MessageOr(call.thrown, UnexpectedError))
      ensures dataWithProgress == old(dataWithProgress)
      ensures singleItem == old(singleItem) && singleResourceWithProgress == old(singleResourceWithProgress)
    {
      var result, _ := HandleAsync(call);
      match result {
        case Ok(response) =>
          data := response.data;
          r := Ok(response.data);
        case Throw(t) =>
          r := Throw(t);
      }
    }

    /** `getById`: a success stores and returns the item (null when the
        service found none). */
    method GetById(call: Outcome<ApiResponse<Option<Resource>>>) returns (r: Outcome<Option<Resource>>)
      modifies this
      ensures !loading
      ensures call.Ok? ==> r == Ok(call.value.data) && singleItem == call.value.data && error.None?
      ensures call.Throw? ==>
        r == Throw(call.thrown) && singleItem == old(singleItem) && error == Some(MessageOr(call.thrown, UnexpectedError))
      ensures data == old(data) && dataWithProgress == old(dataWithProgress)
      ensures singleResourceWithProgress == old(singleResourceWithProgress)
    {
      var result, _ := HandleAsync(call);
      match result {
        case Ok(response) =>
          singleItem := response.data;
          r := Ok(response.data);
        case Throw(t) =>
          r := Throw(t);
      }
    }

    /** `getAllWithProgress` (and `getByDifficultyWithProgress`, which
        differs only in the service call): a success stores and returns the
        joined list. */
    method GetAllWithProgress(call: Outcome<ApiResponse<seq<ResourceWithProgress>>>)
      returns (r: Outcome<seq<ResourceWithProgress>>)
      modifies this
      ensures !loading
      ensures call.Ok? ==> r == Ok(call.value.data) && dataWithProgress == JoinedList(call.value.data) && error.None?
      ensures call.Throw? ==>
        && r == Throw(call.thrown) && dataWithProgress == old(dataWithProgress)
        && error == Some(MessageOr(call.thrown, UnexpectedError))
      ensures data == old(data)
      ensures singleItem == old(singleItem) && singleResourceWithProgress == old(singleResourceWithProgress)
    {
      var result, _ := HandleAsync(call);
      match result {
        case Ok(response) =>
          dataWithProgress := JoinedList(response.data);
          r := Ok(response.data);
        case Throw(t) =>
          r := Throw(t);
      }
    }

    /** `getByCategoryWithProgress`: the service method it calls takes a
        resource id (the category is passed as one) and answers a single
        joined record or null, which a success stores in the list state
        `dataWithProgress` and returns. */
    method GetByCategoryWithProgress(call: Outcome<ApiResponse<Option<ResourceWithProgress>>>)
      returns (r: Outcome<Option<ResourceWithProgress>>)
      modifies this
      ensures !loading
      ensures call.Ok? ==>
        r == Ok(call.value.data) && dataWithProgress == SingleValue(call.value.data) && error.None?
      ensures call.Throw? ==>
        && r == Throw(call.thrown) && dataWithProgress == old(dataWithProgress)
        && error == Some(MessageOr(call.thrown, UnexpectedError))
      ensures data == old(data)
      ensures singleItem == old(singleItem) && singleResourceWithProgress == old(singleResourceWithProgress)
    {
      var result, _ := HandleAsync(call);
      match result {
        case Ok(response) =>
          dataWithProgress := SingleValue(response.data);
          r := Ok(response.data);
        case Throw(t) =>
          r := Throw(t);
      }
    }

    /** `getByIdWithProgress`: a success stores and returns the joined
        resource (null when the service found none). */
    method GetByIdWithProgress(call: Outcome<ApiResponse<Option<ResourceWithProgress>>>)
      returns (r: Outcome<Option<ResourceWithProgress>>)
      modifies this
      ensures !loading
      ensures call.Ok? ==>
        r == Ok(call.value.data) && singleResourceWithProgress == call.value.data && error.None?
      ensures call.Throw? ==>
        && r == Throw(call.thrown) && singleResourceWithProgress == old(singleResourceWithProgress)
        && error == Some(MessageOr(call.thrown, UnexpectedError))
      ensures data == old(data) && dataWithProgress == old(dataWithProgress) && singleItem == old(singleItem)
    {
      var result, _ := HandleAsync(call);
      match result {
        case Ok(response) =>
          singleResourceWithProgress := response.data;
          r := Ok(response.data);
        case Throw(t) =>
          r := Throw(t);
      }
    }

    /** `refresh` is `getAll`. */
    method Refresh(call: Outcome<ApiResponse<seq<Resource>>>) returns (r: Outcome<seq<Resource>>)
      modifies this
      ensures !loading
      ensures call.Ok? ==> r == Ok(call.value.data) && data == call.value.data && error.None?
      ensures call.Throw? ==>
        r == Throw(call.thrown) && data == old(data) && error == Some(MessageOr(call.thrown, UnexpectedError))
      ensures dataWithProgress == old(dataWithProgress)
      ensures singleItem == old(singleItem) && singleResourceWithProgress == old(singleResourceWithProgress)
    {
      r := GetAll(call);
    }
  }
}
