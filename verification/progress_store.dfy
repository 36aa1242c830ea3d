/** The in-memory progress table: each user application owns a list of
    progress records, at most one per resource, and recording an evaluation
    either updates the resource's record in place or appends a new one. */
module ProgressStore {
  import opened Wrappers
  import opened Text
  import opened Model
  import opened Seqs

  /** The parts of a user application the table uses. */
  datatype UserApplication = UserApplication(uid: string, userId: string)

  /** A stored progress record. The evaluation is kept as the record the
      caller supplied. */
  datatype StoredProgress = StoredProgress(
    uid: string,
    resourceUid: string,
    resourceType: int,
    completed: bool,
    completionDate: Timestamp,
    attempts: nat,
    lastAttempt: Timestamp,
    evaluation: Json)

  /** `getResourceType`: the kind of resource its id's prefix names. */
  function GetResourceType(resourceUid: string): (t: int)
    ensures t in {1, 2, 3}
    ensures t == 2 <==> StartsWith(resourceUid, "word_")
    ensures t == 3 <==> StartsWith(resourceUid, "text_")
    ensures StartsWith(resourceUid, "sentence_") ==> t == 1
  {
    PrefixesExclusive(resourceUid);
    if StartsWith(resourceUid, "sentence_") then 1
    else if StartsWith(resourceUid, "word_") then 2
    else if StartsWith(resourceUid, "text_") then 3
    else 1
  }

  /** An id has at most one of the three prefixes (they differ in the first
      character). */
  lemma PrefixesExclusive(s: string)
    ensures !(StartsWith(s, "sentence_") && StartsWith(s, "word_"))
    ensures !(StartsWith(s, "sentence_") && StartsWith(s, "text_"))
    ensures !(StartsWith(s, "word_") && StartsWith(s, "text_"))
  {
    if StartsWith(s, "sentence_") {
      assert s[0] == s[..9][0] == 's';
    }
    if StartsWith(s, "word_") {
      assert s[0] == s[..5][0] == 'w';
    }
  }

  /** The type of a prefixed id does not depend on what follows the
      prefix. */
  lemma ResourceTypeOfPrefixed(rest: string)
    ensures GetResourceType("sentence_" + rest) == 1
    ensures GetResourceType("word_" + rest) == 2
    ensures GetResourceType("text_" + rest) == 3
  {
    assert ("sentence_" + rest)[..9] == "sentence_";
    assert ("word_" + rest)[..5] == "word_";
    assert ("text_" + rest)[..5] == "text_";
  }

  function OwnedBy(userUid: string): UserApplication -> bool
  {
    (app: UserApplication) => app.userId == userUid
  }

  function ForResource(resourceUid: string): StoredProgress -> bool
  {
    (p: StoredProgress) => p.resourceUid == resourceUid
  }

  /** At most one record per resource. */
  predicate UniqueResources(list: seq<StoredProgress>)
  {
    forall i, j :: 0 <= i < j < |list| ==> list[i].resourceUid != list[j].resourceUid
  }

  /** The record a new evaluation creates: one attempt, completed, typed by
      the id's prefix, named after the clock reading. */
  function NewProgress(resourceUid: string, evaluation: Json, now: Timestamp, nowMillis: nat): StoredProgress
  {
    StoredProgress("progress_" + NatToString(nowMillis), resourceUid, GetResourceType(resourceUid),
      true, now, 1, now, evaluation)
  }

  /** The existing record after one more evaluation. */
  function Updated(existing: StoredProgress, evaluation: Json, now: Timestamp): StoredProgress
  {
    existing.(completed := true, completionDate := now, attempts := existing.attempts + 1,
      lastAttempt := now, evaluation := evaluation)
  }

  /** One user's list after recording an evaluation, and the record
      written. */
  function Upsert(list: seq<StoredProgress>, resourceUid: string, evaluation: Json, now: Timestamp, nowMillis: nat)
    : (seq<StoredProgress>, StoredProgress)
  {
    match FirstIndex(list, ForResource(resourceUid))
    case Some(i) =>
      var u := Updated(list[i], evaluation, now);
      (list[i := u], u)
    case None =>
      var p := NewProgress(resourceUid, evaluation, now, nowMillis);
      (list + [p], p)
  }

  /** An existing record is rewritten at its own index: one more attempt,
      completed, the new evaluation, and the same id, resource and type. */
  lemma UpsertUpdatesInPlace(list: seq<StoredProgress>, resourceUid: string, evaluation: Json, now: Timestamp, nowMillis: nat, i: nat)
    requires i < |list| && list[i].resourceUid == resourceUid
    requires forall j :: 0 <= j < i ==> list[j].resourceUid != resourceUid
    ensures var (after, written) := Upsert(list, resourceUid, evaluation, now, nowMillis);
      && |after| == |list| && after[i] == written
      && written.attempts == list[i].attempts + 1 && written.completed
      && written.evaluation == evaluation
      && written.uid == list[i].uid && written.resourceUid == resourceUid
      && written.resourceType == list[i].resourceType
  {
    var r := FirstIndex(list, ForResource(resourceUid));
    assert ForResource(resourceUid)(list[i]);
    assert r.Some? && r.value == i;
  }

  /** A resource without a record gets a new one at the end: one attempt,
      completed, typed by the prefix of its id. */
  lemma UpsertAppends(list: seq<StoredProgress>, resourceUid: string, evaluation: Json, now: Timestamp, nowMillis: nat)
    requires forall j :: 0 <= j < |list| ==> list[j].resourceUid != resourceUid
    ensures var (after, written) := Upsert(list, resourceUid, evaluation, now, nowMillis);
      && after == list + [written]
      && written.attempts == 1 && written.completed && written.evaluation == evaluation
      && written.resourceUid == resourceUid && written.resourceType == GetResourceType(resourceUid)
  {
    assert forall j :: 0 <= j < |list| ==> !ForResource(resourceUid)(list[j]);
  }

  /** Records of other resources keep their place and their contents, and
      the list grows by at most one. */
  lemma UpsertLeavesOthers(list: seq<StoredProgress>, resourceUid: string, evaluation: Json, now: Timestamp, nowMillis: nat)
    ensures var (after, _) := Upsert(list, resourceUid, evaluation, now, nowMillis);
      && |list| <= |after| <= |list| + 1
      && forall j :: 0 <= j < |list| && list[j].resourceUid != resourceUid ==> after[j] == list[j]
  {
  }

  /** Recording an evaluation keeps a list free of duplicate resources. */
  lemma UpsertKeepsUnique(list: seq<StoredProgress>, resourceUid: string, evaluation: Json, now: Timestamp, nowMillis: nat)
    requires UniqueResources(list)
    ensures UniqueResources(Upsert(list, resourceUid, evaluation, now, nowMillis).0)
  {
    var after := Upsert(list, resourceUid, evaluation, now, nowMillis).0;
    match FirstIndex(list, ForResource(resourceUid))
    case Some(i) =>
      forall a, b | 0 <= a < b < |after|
        ensures after[a].resourceUid != after[b].resourceUid
      {
        assert after[a].resourceUid == list[a].resourceUid;
        assert after[b].resourceUid == list[b].resourceUid;
      }
    case None =>
      forall a, b | 0 <= a < b < |after|
        ensures after[a].resourceUid != after[b].resourceUid
      {
        if b == |list| {
          assert !ForResource(resourceUid)(list[a]);
        }
      }
  }

  class ProgressTable {
    var applications: seq<UserApplication>
    var progress: map<string, seq<StoredProgress>>

    /** Every application's list holds at most one record per resource. */
    ghost predicate Valid()
      reads this
    {
      forall key :: key in progress ==> UniqueResources(progress[key])
    }

    constructor (applications: seq<UserApplication>, progress: map<string, seq<StoredProgress>>)
      ensures this.applications == applications && this.progress == progress
    {
      this.applications := applications;
      this.progress := progress;
    }

    /** `getUserApplicationByUid`: the first application of the user. */
    function UserApplicationByUid(userUid: string): (a: Option<UserApplication>)
      reads this
      ensures a.None? <==> forall i :: 0 <= i < |applications| ==> applications[i].userId != userUid
      ensures a.Some? ==> a.value.userId == userUid && a.value in applications
      ensures a.Some? ==> exists i :: (0 <= i < |applications| && applications[i] == a.value
        && forall j :: 0 <= j < i ==> applications[j].userId != userUid)
    {
      var r := Find(applications, OwnedBy(userUid));
      assert r.Some? ==> exists i :: (0 <= i < |applications| && applications[i] == r.value
        && forall j :: 0 <= j < i ==> !OwnedBy(userUid)(applications[j]));
      r
    }

    /** The list stored under an application id (`|| []`). */
    function ListOf(appUid: string): seq<StoredProgress>
      reads this
    {
      if appUid in progress then progress[appUid] else []
    }

    /** `getProgressByUserUid`: the user's records, [] for an unknown user. */
    function ProgressByUserUid(userUid: string): (list: seq<StoredProgress>)
      reads this
      ensures UserApplicationByUid(userUid).None? ==> list == []
      ensures UserApplicationByUid(userUid).Some? ==> list == ListOf(UserApplicationByUid(userUid).value.uid)
    {
      match UserApplicationByUid(userUid)
      case None => []
      case Some(app) => ListOf(app.uid)
    }

    /** `getResourceProgressByUserUid`: the user's first record for the
        resource, if any. */
    function ResourceProgressByUserUid(userUid: string, resourceUid: string): (p: Option<StoredProgress>)
      reads this
      ensures p.Some? ==> p.value in ProgressByUserUid(userUid) && p.value.resourceUid == resourceUid
      ensures p.None? <==> forall q :: q in ProgressByUserUid(userUid) ==> q.resourceUid != resourceUid
      ensures p.Some? ==> var list := ProgressByUserUid(userUid);
        exists i :: (0 <= i < |list| && list[i] == p.value
          && forall j :: 0 <= j < i ==> list[j].resourceUid != resourceUid)
    {
      var list := ProgressByUserUid(userUid);
      var r := Find(list, ForResource(resourceUid));
      assert r.None? ==> forall q :: q in list ==> !ForResource(resourceUid)(q);
      assert r.Some? ==> exists i :: (0 <= i < |list| && list[i] == r.value
        && forall j :: 0 <= j < i ==> !ForResource(resourceUid)(list[j]));
      r
    }

    /** `createOrUpdateEvaluation`. A user without an application gets the
        error and the table is untouched. Otherwise the user's list becomes
        its upsert (every other list unchanged), the written record is
        returned, and the one-record-per-resource invariant is kept.
        `now` and `nowMillis` are the clock readings. */
    method CreateOrUpdateEvaluation(userUid: string, resourceUid: string, evaluation: Json, now: Timestamp, nowMillis: nat)
      returns (r: Outcome<StoredProgress>)
      modifies this
      ensures applications == old(applications)
      ensures old(UserApplicationByUid(userUid)).None? ==>
        r == Throw(ErrorObject("Error", "User application not found")) && progress == old(progress)
      ensures old(UserApplicationByUid(userUid)).Some? ==>
        var key := old(UserApplicationByUid(userUid)).value.uid;
        var (after, written) := Upsert(old(ListOf(key)), resourceUid, evaluation, now, nowMillis);
        && r == Ok(written)
        && progress == old(progress)[key := after]
      ensures old(UserApplicationByUid(userUid)).Some? ==>
        forall key :: key in old(progress) && key != old(UserApplicationByUid(userUid)).value.uid ==>
          key in progress && progress[key] == old(progress)[key]
      ensures old(Valid()) ==> Valid()
    {
      var app := UserApplicationByUid(userUid);
      if app.None? {
        return Throw(ErrorObject("Error", "User application not found"));
      }
      var key := app.value.uid;
      var list := ListOf(key);
      var index := FirstIndex(list, ForResource(resourceUid));
      var written;
      if index.Some? {
        written := Updated(list[index.value], evaluation, now);
        list := list[index.value := written];
      } else {
        written := NewProgress(resourceUid, evaluation, now, nowMillis);
        list := list + [written];
      }
      if old(Valid()) {
        UpsertKeepsUnique(ListOf(key), resourceUid, evaluation, now, nowMillis);
      }
      progress := progress[key := list];
      r := Ok(written);
    }
  }
}
