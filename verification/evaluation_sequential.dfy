/** The evaluation hook that analyses a clip, then scores it, then asks for
    tips, one call after the other, and merges the scoring and feedback
    records by object spread. Records are kept as JSON field maps, since the
    spread copies whatever fields the services answered with. */
module SequentialEvaluation {
  import opened Wrappers
  import opened Model

  type Record = map<string, Json>

  datatype Evaluated = Evaluated(evaluation: Record, analysis: AudioAnalysis)

  /** `{ ...scoring, ...feedback }`: every field of either record, the
      feedback's value winning where both have one. */
  function Spread(scoring: Record, feedback: Record): (r: Record)
    ensures r.Keys == scoring.Keys + feedback.Keys
    ensures forall k :: k in feedback ==> r[k] == feedback[k]
    ensures forall k :: k in scoring && k !in feedback ==> r[k] == scoring[k]
  {
    scoring + feedback
  }

  /** Spreading the same feedback a second time changes nothing. */
  lemma SpreadIdempotent(scoring: Record, feedback: Record)
    ensures Spread(Spread(scoring, feedback), feedback) == Spread(scoring, feedback)
  {
    var once := Spread(scoring, feedback);
    var twice := Spread(once, feedback);
    assert twice.Keys == once.Keys;
    forall k | k in twice
      ensures twice[k] == once[k]
    {
    }
  }

  /** When the feedback carries only tip fields and the scoring record only
      score fields, the merge is their disjoint union: nothing is lost. */
  lemma SpreadDisjoint(scoring: Record, feedback: Record)
    requires scoring.Keys !! feedback.Keys
    ensures Spread(scoring, feedback) - feedback.Keys == scoring
    ensures Spread(feedback, scoring) == Spread(scoring, feedback)
  {
    var r := Spread(scoring, feedback);
    assert (r - feedback.Keys).Keys == scoring.Keys;
  }

  function Failure(
    analysis: Outcome<AudioAnalysis>, scoring: Outcome<Record>, feedback: Outcome<Record>): (f: Option<Thrown>)
    ensures f.None? <==> analysis.Ok? && scoring.Ok? && feedback.Ok?
    ensures analysis.Throw? ==> f == Some(analysis.thrown)
    ensures analysis.Ok? && scoring.Throw? ==> f == Some(scoring.thrown)
    ensures analysis.Ok? && scoring.Ok? && feedback.Throw? ==> f == Some(feedback.thrown)
  {
    if analysis.Throw? then Some(analysis.thrown)
    else if scoring.Throw? then Some(scoring.thrown)
    else if feedback.Throw? then Some(feedback.thrown)
    else None
  }

  /** The calls issued: each one only after the previous one succeeded. */
  function CallsIssued(analysis: Outcome<AudioAnalysis>, scoring: Outcome<Record>): (calls: seq<ServiceCall>)
    ensures Feedback in calls <==> analysis.Ok? && scoring.Ok?
    ensures Score in calls <==> analysis.Ok?
    ensures |calls| >= 1 && calls[0] == Analyze
  {
    if analysis.Throw? then [Analyze]
    else if scoring.Throw? then [Analyze, Score]
    else [Analyze, Score, Feedback]
  }

  class AudioEvaluation {
    var isEvaluating: bool
    var isSaving: bool
    var evaluation: Option<Record>
    var error: Option<string>
    var userAudioAnalysis: Option<AudioAnalysis>

    function Flags(): HookFlags
      reads this
    {
      HookFlags(isEvaluating, isSaving, error)
    }

    constructor ()
      ensures !isEvaluating && !isSaving && evaluation.None? && error.None?
      ensures userAudioAnalysis.None?
    {
      isEvaluating, isSaving, evaluation, error := false, false, None, None;
      userAudioAnalysis := None;
    }

    /** `evaluateAudio`, sequential: analysis, then scoring, then feedback.
        Success stores and returns the spread merge; any failure returns
        None, sets the error and keeps the previous evaluation. */
    method EvaluateAudio(analysis: Outcome<AudioAnalysis>, scoring: Outcome<Record>, feedback: Outcome<Record>)
      returns (r: Option<Evaluated>, ghost pending: HookFlags, ghost calls: seq<ServiceCall>)
      modifies this
      ensures pending == HookFlags(true, old(isSaving), None)
      ensures !isEvaluating && isSaving == old(isSaving)
      ensures calls == CallsIssued(analysis, scoring)
      ensures userAudioAnalysis == if analysis.Ok? then Some(analysis.value) else old(userAudioAnalysis)
      ensures var f := Failure(analysis, scoring, feedback);
        if f.None? then
          var merged := Spread(scoring.value, feedback.value);
          && r == Some(Evaluated(merged, analysis.value))
          && evaluation == Some(merged) && error.None?
        else
          && r.None? && evaluation == old(evaluation)
          && error == Some(MessageOr(f.value, "Unknown error"))
    {
      isEvaluating, error := true, None;
      pending := Flags();
      calls := [Analyze];
      if analysis.Throw? {
        error, isEvaluating := Some(MessageOr(analysis.thrown, "Unknown error")), false;
        return None, pending, calls;
      }
      userAudioAnalysis := Some(analysis.value);
      calls := calls + [Score];
      if scoring.Throw? {
        error, isEvaluating := Some(MessageOr(scoring.thrown, "Unknown error")), false;
        return None, pending, calls;
      }
      calls := calls + [Feedback];
      if feedback.Throw? {
        error, isEvaluating := Some(MessageOr(feedback.thrown, "Unknown error")), false;
        return None, pending, calls;
      }
      var result := Spread(scoring.value, feedback.value);
      evaluation, isEvaluating := Some(result), false;
      r := Some(Evaluated(result, analysis.value));
    }

    /** `saveUserProgress`, as in the parallel hook. */
    method SaveUserProgress(userId: Option<string>, payload: ResourceCompleted, saved: Outcome<()>)
      returns (ok: bool, ghost pending: HookFlags, ghost calls: seq<ServiceCall>)
      modifies this
      ensures pending == HookFlags(old(isEvaluating), true, None)
      ensures calls == [SaveProgress(userId, payload)]
      ensures ok <==> saved.Ok?
      ensures !isSaving && isEvaluating == old(isEvaluating)
      ensures error == if ok then None else Some(MessageOr(saved.thrown, "Failed to save user progress"))
      ensures evaluation == old(evaluation) && userAudioAnalysis == old(userAudioAnalysis)
    {
      isSaving, error := true, None;
      pending := Flags();
      calls := [SaveProgress(userId, payload)];
      if saved.Throw? {
        error, isSaving := Some(MessageOr(saved.thrown, "Failed to save user progress")), false;
        return false, pending, calls;
      }
      isSaving := false;
      return true, pending, calls;
    }

    /** `clearEvaluation`: back to the initial state. */
    method ClearEvaluation()
      modifies this
      ensures !isEvaluating && !isSaving && evaluation.None? && error.None?
      ensures userAudioAnalysis.None?
    {
      evaluation, error, isEvaluating, isSaving := None, None, false, false;
      userAudioAnalysis := None;
    }
  }
}
