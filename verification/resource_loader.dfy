/** Loading the resource a practice page shows: the route gives the
    resource type and id, the type picks the words, sentences or texts
    hook, and that hook's `getByIdWithProgress` fetches it. */
module ResourceLoader {
  import opened Wrappers
  import opened Model
  import GenericResource

  const ResourceTypes: set<string> := {"words", "sentences", "texts"}

  class ResourceLoader {
    const userId: Option<string>
    const resourceType: Option<string>
    const resourceUid: Option<string>
    const words: GenericResource.ResourceHook
    const sentences: GenericResource.ResourceHook
    const texts: GenericResource.ResourceHook

    var resource: Option<ResourceWithProgress>
    var loading: bool
    var error: Option<string>

    /** Mount: no resource, loading, no error. */
    constructor (userId: Option<string>, resourceType: Option<string>, resourceUid: Option<string>)
      ensures this.userId == userId && this.resourceType == resourceType && this.resourceUid == resourceUid
      ensures resource.None? && loading && error.None?
      ensures fresh(words) && fresh(sentences) && fresh(texts)
      ensures Valid()
    {
      this.userId, this.resourceType, this.resourceUid := userId, resourceType, resourceUid;
      resource, loading, error := None, true, None;
      words := new GenericResource.ResourceHook();
      sentences := new GenericResource.ResourceHook();
      texts := new GenericResource.ResourceHook();
    }

    /** The three hooks are separate instances. */
    predicate Valid()
    {
      words != sentences && words != texts && sentences != texts
    }

    /** The hook for a supported type. */
    function HookFor(t: string): GenericResource.ResourceHook
      requires t in ResourceTypes
    {
      if t == "words" then words else if t == "sentences" then sentences else texts
    }

    /** Whether the effect fetches: a user, an id, and a supported type. */
    predicate Fetches()
    {
      Truthy(userId) && Truthy(resourceUid) && Truthy(resourceType) && resourceType.value in ResourceTypes
    }

    /** `loadResource`. Without a user or an id it only lowers `loading`.
        Otherwise the error is cleared and the type checked: a missing type
        is "Invalid resource type or ID", an unknown one "Unsupported
        resource type". A supported type fetches (`fetched` is the outcome
        of that hook's call); success stores the resource, failure records
        the message or "An error occurred". `loading` is down afterwards in
        every case. Only the chosen hook changes: its single joined
        resource and its error follow the fetch. */
    method LoadResource(fetched: Outcome<ApiResponse<Option<ResourceWithProgress>>>)
      requires Valid()
      modifies this, words, sentences, texts
      ensures !loading
      ensures !(Truthy(userId) && Truthy(resourceUid)) ==>
        resource == old(resource) && error == old(error)
      ensures Truthy(userId) && Truthy(resourceUid) && !Truthy(resourceType) ==>
        resource == old(resource) && error == Some("Invalid resource type or ID")
      ensures Truthy(userId) && Truthy(resourceUid) && Truthy(resourceType) && resourceType.value !in ResourceTypes ==>
        resource == old(resource) && error == Some("Unsupported resource type")
      ensures Fetches() && fetched.Ok? ==> resource == fetched.value.data && error.None?
      ensures Fetches() && fetched.Throw? ==>
        resource == old(resource) && error == Some(MessageOr(fetched.thrown, "An error occurred"))
      ensures !Fetches() ==> unchanged(words, sentences, texts)
      ensures Fetches() && resourceType.value != "words" ==> unchanged(words)
      ensures Fetches() && resourceType.value != "sentences" ==> unchanged(sentences)
      ensures Fetches() && resourceType.value != "texts" ==> unchanged(texts)
      ensures Fetches() ==> var h := HookFor(resourceType.value);
        && !h.loading && h.data == old(h.data) && h.dataWithProgress == old(h.dataWithProgress)
        && h.singleItem == old(h.singleItem)
        && (fetched.Ok? ==> h.singleResourceWithProgress == fetched.value.data && h.error.None?)
        && (fetched.Throw? ==> (h.singleResourceWithProgress == old(h.singleResourceWithProgress)
          && h.error == Some(MessageOr(fetched.thrown, GenericResource.UnexpectedError))))
    {
      if !Truthy(userId) || !Truthy(resourceUid) {
        loading := false;
        return;
      }
      loading := true;
      error := None;
      if !Truthy(resourceType) {
        error := Some("Invalid resource type or ID");
      } else if resourceType.value !in ResourceTypes {
        error := Some("Unsupported resource type");
      } else {
        var hook := HookFor(resourceType.value);
        var r := hook.GetByIdWithProgress(fetched);
        match r {
          case Ok(data) =>
            resource := data;
          case Throw(t) =>
            error := Some(MessageOr(t, "An error occurred"));
        }
      }
      loading := false;
    }
  }
}
