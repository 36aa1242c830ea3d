/** The evaluation hook that analyses a clip and then asks three services at
    once (scores, tips, level), joining their answers into one flat
    evaluation record. Each service answer is an outcome supplied by the
    caller; the calls the hook issues are reported as a ghost sequence. */
module ParallelEvaluation {
  import opened Wrappers
  import opened Model

  /** A successful evaluation: the joined record and the user's analysis. */
  datatype Evaluated = Evaluated(evaluation: FlatEvaluation, analysis: AudioAnalysis)

  /** The joined record: scores from the scoring answer, tip lists from the
      feedback answer, the level from the classification answer. */
  function Join(scores: EvaluationScores, tips: Tips, level: string): (r: FlatEvaluation)
    ensures r.Scores() == scores && r.TipLists() == tips && r.classification == level
    ensures forall e: FlatEvaluation ::
      e.Scores() == scores && e.TipLists() == tips && e.classification == level ==> e == r
  {
    FlatEvaluation(
      tips.articulationTip, tips.clarityTip, tips.rythmTip, tips.speedTip,
      scores.articulationScore, scores.clarityScore, scores.rythmScore,
      scores.speedScore, scores.totalScore,
      level)
  }

  /** What `evaluateAudio` catches: the analysis failure, else the failure of
      the joined calls (the first failing one in call order). */
  function Failure(
    analysis: Outcome<AudioAnalysis>, scores: Outcome<EvaluationScores>,
    feedback: Outcome<Tips>, level: Outcome<string>): (f: Option<Thrown>)
    ensures f.None? <==> analysis.Ok? && scores.Ok? && feedback.Ok? && level.Ok?
    ensures analysis.Throw? ==> f == Some(analysis.thrown)
    ensures f.Some? && analysis.Ok? ==>
      (scores.Throw? && f.value == scores.thrown)
      || (feedback.Throw? && f.value == feedback.thrown)
      || (level.Throw? && f.value == level.thrown)
  {
    if analysis.Throw? then Some(analysis.thrown)
    else if scores.Throw? then Some(scores.thrown)
    else if feedback.Throw? then Some(feedback.thrown)
    else if level.Throw? then Some(level.thrown)
    else None
  }

  class AudioEvaluation {
    var isEvaluating: bool
    var isSaving: bool
    var evaluation: Option<FlatEvaluation>
    var error: Option<string>
    var userAudioAnalysis: Option<AudioAnalysis>

    function Flags(): HookFlags
      reads this
    {
      HookFlags(isEvaluating, isSaving, error)
    }

    constructor ()
      ensures !isEvaluating && !isSaving && evaluation.None? && error.None?
      ensures userAudioAnalysis.None?
    {
      isEvaluating, isSaving, evaluation, error := false, false, None, None;
      userAudioAnalysis := None;
    }

    /** `evaluateAudio`. While the calls are pending the hook shows
        `pending`: evaluating, with no error. The three comparison calls are
        issued only once the analysis has succeeded, and the result is stored
        only if all three succeed; any failure returns None, keeps the
        previous evaluation and sets the error. */
    method EvaluateAudio(
      analysis: Outcome<AudioAnalysis>, scores: Outcome<EvaluationScores>,
      feedback: Outcome<Tips>, level: Outcome<string>)
      returns (r: Option<Evaluated>, ghost pending: HookFlags, ghost calls: seq<ServiceCall>)
      modifies this
      ensures pending == HookFlags(true, old(isSaving), None)
      ensures !isEvaluating && isSaving == old(isSaving)
      ensures calls == if analysis.Ok? then [Analyze, Score, Feedback, Classify] else [Analyze]
      ensures userAudioAnalysis == if analysis.Ok? then Some(analysis.value) else old(userAudioAnalysis)
      ensures var f := Failure(analysis, scores, feedback, level);
        if f.None? then
          var joined := Join(scores.value, feedback.value, level.value);
          && r == Some(Evaluated(joined, analysis.value))
          && evaluation == Some(joined) && error.None?
        else
          && r.None? && evaluation == old(evaluation)
          && error == Some(MessageOr(f.value, "Unknown error"))
    {
      isEvaluating, error := true, None;
      pending := Flags();
      calls := [Analyze];
      if analysis.Throw? {
        error, isEvaluating := Some(MessageOr(analysis.thrown, "Unknown error")), false;
        return None, pending, calls;
      }
      userAudioAnalysis := Some(analysis.value);
      calls := calls + [Score, Feedback, Classify];
      var f := Failure(analysis, scores, feedback, level);
      if f.Some? {
        error, isEvaluating := Some(MessageOr(f.value, "Unknown error")), false;
        return None, pending, calls;
      }
      var result := Join(scores.value, feedback.value, level.value);
      evaluation, isEvaluating := Some(result), false;
      r := Some(Evaluated(result, analysis.value));
    }

    /** `saveUserProgress`: saving with no error while the call is pending;
        afterwards not saving, and the answer is whether the call
        succeeded. Only the error changes besides the saving flag. */
    method SaveUserProgress(userId: Option<string>, payload: ResourceCompleted, saved: Outcome<()>)
      returns (ok: bool, ghost pending: HookFlags, ghost calls: seq<ServiceCall>)
      modifies this
      ensures pending == HookFlags(old(isEvaluating), true, None)
      ensures calls == [SaveProgress(userId, payload)]
      ensures ok <==> saved.Ok?
      ensures !isSaving && isEvaluating == old(isEvaluating)
      ensures error == if ok then None else Some(MessageOr(saved.thrown, "Failed to save user progress"))
      ensures evaluation == old(evaluation) && userAudioAnalysis == old(userAudioAnalysis)
    {
      isSaving, error := true, None;
      pending := Flags();
      calls := [SaveProgress(userId, payload)];
      if saved.Throw? {
        error, isSaving := Some(MessageOr(saved.thrown, "Failed to save user progress")), false;
        return false, pending, calls;
      }
      isSaving := false;
      return true, pending, calls;
    }

    /** `clearEvaluation`: back to the initial state. */
    method ClearEvaluation()
      modifies this
      ensures !isEvaluating && !isSaving && evaluation.None? && error.None?
      ensures userAudioAnalysis.None?
    {
      evaluation, error, isEvaluating, isSaving := None, None, false, false;
      userAudioAnalysis := None;
    }
  }
}
