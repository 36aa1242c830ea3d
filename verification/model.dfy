/** The records the front end exchanges with its services and keeps in
    component state: acoustic analyses, scores, tips, the flat and the
    nested evaluation shapes, stored progress, resources and the resource
    joined with the user's progress. Dates are kept as the timestamp text
    the caller supplies. */
module Model {
  import opened Wrappers

  type Timestamp = string

  /** Objective measurements of one spoken clip. */
  datatype AudioAnalysis = AudioAnalysis(
    numberOfSyllables: real,
    numberOfPauses: real,
    speechRate: real,
    articulationRate: real,
    speakingDuration: real,
    totalDuration: real,
    ratio: real,
    transcription: string)

  /** The five scores of the scoring call. */
  datatype EvaluationScores = EvaluationScores(
    articulationScore: real,
    clarityScore: real,
    rythmScore: real,
    speedScore: real,
    totalScore: real)

  /** One list of suggestions per scored dimension. */
  datatype Tips = Tips(
    articulationTip: seq<string>,
    clarityTip: seq<string>,
    rythmTip: seq<string>,
    speedTip: seq<string>)

  /** The flat evaluation shape: scores, tip lists and the level side by side. */
  datatype FlatEvaluation = FlatEvaluation(
    articulationTip: seq<string>,
    clarityTip: seq<string>,
    rythmTip: seq<string>,
    speedTip: seq<string>,
    articulationScore: real,
    clarityScore: real,
    rythmScore: real,
    speedScore: real,
    totalScore: real,
    classification: string)
  {
    function Scores(): EvaluationScores
    {
      EvaluationScores(articulationScore, clarityScore, rythmScore, speedScore, totalScore)
    }

    function TipLists(): Tips
    {
      Tips(articulationTip, clarityTip, rythmTip, speedTip)
    }
  }

  /** The nested evaluation shape: the tip lists grouped under `tips`, and
      the URL of the reference recording it was made against. */
  datatype Evaluation = Evaluation(
    articulationScore: real,
    clarityScore: real,
    rythmScore: real,
    speedScore: real,
    totalScore: real,
    tips: Tips,
    classification: string,
    audioUrl: Option<string>)
  {
    function Scores(): EvaluationScores
    {
      EvaluationScores(articulationScore, clarityScore, rythmScore, speedScore, totalScore)
    }
  }

  /** A stored progress record of one user for one resource. */
  datatype Progress = Progress(
    id: string,
    resourceUid: string,
    resourceType: int,
    completed: bool,
    completionDate: Timestamp,
    attempts: nat,
    lastAttempt: Timestamp,
    evaluation: Evaluation,
    audioAnalysis: AudioAnalysis)

  /** A JavaScript number: NaN or a finite value. */
  datatype Number = NaN | Finite(value: real)

  /** The fields that words, sentences and texts share. */
  datatype Resource = Resource(
    id: string,
    audioUrl: Option<string>,
    text: string,
    difficulty: string,
    categories: seq<string>,
    wordCount: nat,
    audioAnalysis: AudioAnalysis,
    audioDuration: Option<Number>)

  /** A resource joined with the user's progress on it. */
  datatype ResourceWithProgress = ResourceWithProgress(
    id: string,
    categories: seq<string>,
    difficulty: string,
    resource: Resource,
    isCompleted: bool,
    attempts: nat,
    evaluation: Option<Evaluation>,
    progress: Option<Progress>)

  /** The payload that records a finished attempt on the backend. */
  datatype ResourceCompleted = ResourceCompleted(
    resourceUid: string,
    resourceType: int,
    attempts: nat,
    completed: bool,
    lastAttempt: Timestamp,
    completionDate: Timestamp,
    evaluation: Evaluation,
    audioAnalysis: AudioAnalysis)

  /** A JSON value, for the places where the code works on untyped records
      (object spread, `"id" in data`). */
  datatype Json =
    | JNull
    | JBool(b: bool)
    | JNumber(n: real)
    | JString(s: string)
    | JArray(items: seq<Json>)
    | JObject(fields: map<string, Json>)

  /** The envelope every service call answers with. */
  datatype ApiResponse<T> = ApiResponse(data: T, status: int, message: string)

  /** A call an evaluation hook issues to the remote services, in the order
      issued. */
  datatype ServiceCall =
    | Analyze
    | Score
    | Feedback
    | Classify
    | SaveProgress(userId: Option<string>, payload: ResourceCompleted)

  /** The flags an evaluation hook exposes. */
  datatype HookFlags = HookFlags(isEvaluating: bool, isSaving: bool, error: Option<string>)
}
