/** The practice page of one resource: it records each finished evaluation
    as one more attempt, saves the progress on request, and chooses what the
    evaluation panel, the level card and the category tags show. */
module ResourceView {
  import opened Wrappers
  import opened Model
  import opened ResourceUtils
  import ParallelEvaluation

  /** What the evaluation panel shows. */
  datatype Panel = ErrorPanel(message: string) | EvaluationPanel(evaluation: Evaluation) | Placeholder

  /** The panel: a (non-empty) evaluation error wins over a stored
      evaluation, which wins over the placeholder. */
  function PanelFor(error: Option<string>, evaluation: Option<Evaluation>): (p: Panel)
    ensures p.ErrorPanel? <==> Truthy(error)
    ensures p.ErrorPanel? ==> p.message == error.value
    ensures p.EvaluationPanel? <==> !Truthy(error) && evaluation.Some?
    ensures p.EvaluationPanel? ==> p.evaluation == evaluation.value
  {
    if Truthy(error) then ErrorPanel(error.value)
    else if evaluation.Some? then EvaluationPanel(evaluation.value)
    else Placeholder
  }

  /** What the level area shows: no card, or the level card with its label
      (which may itself be missing). */
  datatype LevelArea = NoLevelYet | LevelCard(levelLabel: Option<string>)

  /** The stored progress's level wins when it is non-empty; otherwise the
      level of the latest evaluation on this page. */
  function LevelAreaFor(progress: Option<Progress>, currentUserLevel: Option<string>): (a: LevelArea)
    ensures a.NoLevelYet? <==> progress.None? && !Truthy(currentUserLevel)
    ensures a.LevelCard? && progress.Some? && progress.value.evaluation.classification != "" ==>
      a.levelLabel == Some(progress.value.evaluation.classification)
    ensures a.LevelCard? && (progress.None? || progress.value.evaluation.classification == "") ==>
      a.levelLabel == currentUserLevel
  {
    if !Truthy(currentUserLevel) && progress.None? then NoLevelYet
    else if progress.Some? && progress.value.evaluation.classification != "" then
      LevelCard(Some(progress.value.evaluation.classification))
    else LevelCard(currentUserLevel)
  }

  /** The three tag colours, used in turn. */
  datatype TagColor = Indigo | Pink | Amber

  function TagColorAt(index: nat): (c: TagColor)
  {
    if index % 3 == 0 then Indigo else if index % 3 == 1 then Pink else Amber
  }

  /** The tag colours repeat with period three, and neighbouring tags never
      share a colour. */
  lemma TagColorsCycle(index: nat)
    ensures TagColorAt(index + 3) == TagColorAt(index)
    ensures TagColorAt(index + 1) != TagColorAt(index)
  {
    assert (index + 3) % 3 == index % 3;
    assert (index + 1) % 3 == (index % 3 + 1) % 3;
  }

  class ResourceView {
    const userId: Option<string>
    const resourceUid: Option<string>
    const audioEvaluation: ParallelEvaluation.AudioEvaluation

    var resource: Option<ResourceWithProgress>
    var userAudioAnalysis: Option<AudioAnalysis>
    var currentUserLevel: Option<string>

    constructor (userId: Option<string>, resourceUid: Option<string>, resource: Option<ResourceWithProgress>)
      ensures this.userId == userId && this.resourceUid == resourceUid && this.resource == resource
      ensures userAudioAnalysis.None? && currentUserLevel.None?
      ensures fresh(audioEvaluation)
    {
      this.userId := userId;
      this.resourceUid := resourceUid;
      this.resource := resource;
      userAudioAnalysis, currentUserLevel := None, None;
      audioEvaluation := new ParallelEvaluation.AudioEvaluation();
    }

    /** `handleEvaluationComplete`: the loaded resource gains one attempt and
        stores the nested form of the evaluation (against the resource's own
        recording); with no resource loaded it stays absent. The level
        changes only for a non-empty classification. */
    method HandleEvaluationComplete(evaluation: FlatEvaluation, analysis: Option<AudioAnalysis>)
      modifies this
      ensures userAudioAnalysis == analysis
      ensures old(resource).None? ==> resource.None?
      ensures old(resource).Some? ==>
        var prev := old(resource).value;
        && resource.Some?
        && resource.value.attempts == prev.attempts + 1
        && resource.value.evaluation == Some(TransformEvaluation(evaluation, prev.resource.audioUrl))
        && resource.value == prev.(attempts := prev.attempts + 1, evaluation := resource.value.evaluation)
      ensures currentUserLevel ==
        if evaluation.classification != "" then Some(evaluation.classification) else old(currentUserLevel)
    {
      var url := if resource.Some? then resource.value.resource.audioUrl else None;
      var transformed := TransformEvaluation(evaluation, url);
      userAudioAnalysis := analysis;
      if resource.Some? {
        var prev := resource.value;
        resource := Some(prev.(evaluation := Some(transformed), attempts := prev.attempts + 1));
      }
      if evaluation.classification != "" {
        currentUserLevel := Some(evaluation.classification);
      }
    }

    /** Whether `handleSaveProgress` has everything it needs. */
    predicate CanSave()
      reads this
    {
      resource.Some? && Truthy(resourceUid) && resource.value.evaluation.Some? && userAudioAnalysis.Some?
    }

    /** `handleSaveProgress`: without a resource, its id, an evaluation or
        the user's analysis nothing is sent and nothing changes. Otherwise
        the completed-attempt record goes to the save call (`now` is the
        clock reading), and only a successful save marks the resource
        completed. The user is not part of the guard: the save call gets
        the user id as it is, absent or not. */
    method HandleSaveProgress(now: Timestamp, saved: Outcome<()>)
      returns (ghost sent: Option<ResourceCompleted>, ghost calls: seq<ServiceCall>)
      modifies this, audioEvaluation
      ensures sent.Some? <==> old(CanSave())
      ensures calls == if sent.Some? then [SaveProgress(userId, sent.value)] else []
      ensures !old(CanSave()) ==>
        && resource == old(resource)
        && unchanged(audioEvaluation)
      ensures old(CanSave()) ==>
        var prev := old(resource).value;
        && sent.value == ResourceCompleted(
             resourceUid.value, 1, prev.attempts, true, now, now,
             prev.evaluation.value, old(userAudioAnalysis).value)
        && resource == (if saved.Ok? then Some(prev.(isCompleted := true)) else old(resource))
        && !audioEvaluation.isSaving
        && audioEvaluation.evaluation == old(audioEvaluation.evaluation)
        && audioEvaluation.isEvaluating == old(audioEvaluation.isEvaluating)
        && audioEvaluation.userAudioAnalysis == old(audioEvaluation.userAudioAnalysis)
        && audioEvaluation.error == (if saved.Ok? then None
             else Some(MessageOr(saved.thrown, "Failed to save user progress")))
      ensures userAudioAnalysis == old(userAudioAnalysis) && currentUserLevel == old(currentUserLevel)
    {
      if !CanSave() {
        return None, [];
      }
      var prev := resource.value;
      var payload := ResourceCompleted(
        resourceUid.value, 1, prev.attempts, true, now, now,
        prev.evaluation.value, userAudioAnalysis.value);
      var success, _, issued := audioEvaluation.SaveUserProgress(userId, payload, saved);
      sent, calls := Some(payload), issued;
      if success {
        resource := Some(resource.value.(isCompleted := true));
      }
    }
  }
}
