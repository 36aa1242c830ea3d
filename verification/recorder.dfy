/** The audio recorder hook: capture under a target duration with a
    tolerance window, a one-second tick, pause/resume, an automatic stop at
    the upper bound, an advisory duration verdict at stop, and release of the
    object URL, the microphone stream and the interval timer.

    Browser handles are opaque numbers. Ghost sets record which object URLs,
    microphone streams and intervals are live, so that revocation and release
    can be stated. */
module Recorder {
  import opened Wrappers
  import opened Text

  type UrlId = nat
  type StreamId = nat
  type TimerId = nat
  type Chunk = nat

  /** A finished clip: the recorded chunks under the configured MIME type. */
  datatype Blob = Blob(parts: seq<Chunk>, mimeType: string)

  datatype RecorderError =
    | NotSupported          // "Audio recording is not supported in this browser."
    | TooShort(minimum: real)   // "Recording is too short. Minimum duration is <min> seconds."
    | TooLong(maximum: real)    // "Recording is too long. Maximum duration is <max> seconds."
    | RecordingFailed       // "Recording failed. Please try again."
    | StartFailed(message: string)

  const DefaultDuration: real := 10.0
  const DefaultTolerancePercentage: real := 20.0
  const DefaultMimeType: string := "audio/webm;codecs=opus"

  function Tolerance(duration: real, percentage: real): real
  {
    duration * percentage / 100.0
  }

  /** The shortest acceptable recording, never below one second. */
  function MinDuration(duration: real, percentage: real): real
  {
    var lo := duration - Tolerance(duration, percentage);
    if lo < 1.0 then 1.0 else lo
  }

  /** The longest acceptable recording; reaching it stops the recording. */
  function MaxDuration(duration: real, percentage: real): real
  {
    duration + Tolerance(duration, percentage)
  }

  /** For a target of at least one second and a non-negative tolerance, the
      window contains the target and its lower end is at least one second. */
  lemma ToleranceWindow(duration: real, percentage: real)
    requires duration >= 1.0 && percentage >= 0.0
    ensures 1.0 <= MinDuration(duration, percentage) <= duration <= MaxDuration(duration, percentage)
  {
    assert Tolerance(duration, percentage) >= 0.0;
  }

  /** The defaults (10 s, 20%) give the window [8 s, 12 s]. */
  lemma DefaultWindow()
    ensures MinDuration(DefaultDuration, DefaultTolerancePercentage) == 8.0
    ensures MaxDuration(DefaultDuration, DefaultTolerancePercentage) == 12.0
  {
  }

  /** The advisory verdict computed when a recording stops. */
  function DurationVerdict(time: real, minDuration: real, maxDuration: real): (e: Option<RecorderError>)
    ensures e.None? <==> minDuration <= time <= maxDuration
    ensures e == Some(TooShort(minDuration)) <==> time < minDuration
    ensures e == Some(TooLong(maxDuration)) <==> minDuration <= time && maxDuration < time
  {
    if time < minDuration then Some(TooShort(minDuration))
    else if time > maxDuration then Some(TooLong(maxDuration))
    else None
  }

  function UrlSet(u: Option<UrlId>): set<UrlId>
  {
    if u.Some? then {u.value} else {}
  }

  function StreamSet(s: Option<StreamId>): set<StreamId>
  {
    if s.Some? then {s.value} else {}
  }

  function TimerSet(t: Option<TimerId>): set<TimerId>
  {
    if t.Some? then {t.value} else {}
  }

  class AudioRecorder {
    const duration: real
    const tolerancePercentage: real
    const mimeType: string
    const minDuration: real
    const maxDuration: real
    const isSupported: bool

    // the state record
    var isRecording: bool
    var isPaused: bool
    var recordingTime: nat
    var audioBlob: Option<Blob>
    var audioUrl: Option<UrlId>
    var error: Option<RecorderError>

    // the refs
    var hasMediaRecorder: bool
    var mediaStream: Option<StreamId>
    var timer: Option<TimerId>
    var chunks: seq<Chunk>

    ghost var liveUrls: set<UrlId>
    ghost var liveStreams: set<StreamId>
    ghost var liveTimers: set<TimerId>

    /** Only the current clip's URL can be live, a recording in progress has
        no clip yet, only a recording can be paused, and a recording in
        progress has a recorder object and has not reached the upper bound. */
    ghost predicate Valid()
      reads this
    {
      && minDuration == MinDuration(duration, tolerancePercentage)
      && maxDuration == MaxDuration(duration, tolerancePercentage)
      && liveUrls <= UrlSet(audioUrl)
      && (isRecording ==> audioUrl.None? && audioBlob.None?)
      && (isPaused ==> isRecording)
      && (isRecording ==> hasMediaRecorder)
      && (isRecording ==> (recordingTime as real) < maxDuration)
    }

    constructor (duration: real, tolerancePercentage: real, mimeType: string, supported: bool)
      ensures Valid()
      ensures this.duration == duration && this.tolerancePercentage == tolerancePercentage
      ensures this.mimeType == mimeType && isSupported == supported
      ensures !isRecording && !isPaused && recordingTime == 0
      ensures audioBlob.None? && audioUrl.None? && error.None?
      ensures !hasMediaRecorder && mediaStream.None? && timer.None? && chunks == []
      ensures liveUrls == {} && liveStreams == {} && liveTimers == {}
    {
      this.duration := duration;
      this.tolerancePercentage := tolerancePercentage;
      this.mimeType := mimeType;
      minDuration := MinDuration(duration, tolerancePercentage);
      maxDuration := MaxDuration(duration, tolerancePercentage);
      isSupported := supported;
      isRecording, isPaused, recordingTime := false, false, 0;
      audioBlob, audioUrl, error := None, None, None;
      hasMediaRecorder, mediaStream, timer, chunks := false, None, None, [];
      liveUrls, liveStreams, liveTimers := {}, {}, {};
    }

    // ----- derived flags -----

    function CanRecord(): bool
      reads this
    {
      !isRecording && isSupported
    }

    function CanStop(): bool
      reads this
    {
      isRecording
    }

    /** As written: true only while recording AND already paused. */
    function CanPause(): bool
      reads this
    {
      isRecording && isPaused
    }

    function HasRecording(): bool
      reads this
    {
      audioBlob.Some?
    }

    function IsValidDuration(): bool
      reads this
    {
      minDuration <= recordingTime as real <= maxDuration
    }

    /** `Math.min(time / duration * 100, 100)`; None stands for NaN (0/0). */
    function ProgressPercentage(): (p: Option<real>)
      reads this
      ensures p.Some? ==> p.value <= 100.0
      ensures p.None? <==> duration == 0.0 && recordingTime == 0
      ensures duration > 0.0 && (recordingTime as real) <= duration ==> p == Some(recordingTime as real / duration * 100.0)
      ensures duration > 0.0 && (recordingTime as real) > duration ==> p == Some(100.0)
      ensures duration == 0.0 && recordingTime > 0 ==> p == Some(100.0)
    {
      if duration == 0.0 then
        (if recordingTime == 0 then None else Some(100.0))
      else
        var q := recordingTime as real / duration * 100.0;
        Some(if q < 100.0 then q else 100.0)
    }

    /** `formatTime(recordingTime)`: the seconds within the minute, two digits. */
    function FormattedTime(): (s: string)
      reads this
      ensures |s| == 2 && AllDigits(s)
      ensures DigitsValue(s) == recordingTime % 60
    {
      TwoDigits(recordingTime % 60)
    }

    // ----- transitions -----

    /** The timer callback's effect plus the auto-stop effect: one more
        second; if that reaches the upper bound while recording, stop (the
        browser hands out `url` for the finished clip). */
    method Tick(url: UrlId)
      requires Valid()
      requires liveTimers != {}
      modifies this
      ensures Valid()
      ensures recordingTime == old(recordingTime) + 1
      ensures var autoStop := old(isRecording) && (recordingTime as real) >= maxDuration;
        if autoStop then
          && !isRecording && !isPaused && timer.None?
          && liveTimers == old(liveTimers) - TimerSet(old(timer))
          && error == DurationVerdict(recordingTime as real, minDuration, maxDuration)
          && audioBlob == Some(Blob(old(chunks), mimeType)) && audioUrl == Some(url)
          && mediaStream.None? && liveStreams == old(liveStreams) - StreamSet(old(mediaStream))
          && liveUrls == old(liveUrls) + {url}
        else
          && isRecording == old(isRecording) && isPaused == old(isPaused)
          && audioBlob == old(audioBlob) && audioUrl == old(audioUrl) && error == old(error)
          && liveUrls == old(liveUrls)
          && timer == old(timer) && liveTimers == old(liveTimers)
          && mediaStream == old(mediaStream) && liveStreams == old(liveStreams)
      ensures chunks == old(chunks) && hasMediaRecorder == old(hasMediaRecorder)
    {
      recordingTime := recordingTime + 1;
      AutoStop(url);
    }

    /** The effect that stops a recording that has reached the upper bound. */
    method AutoStop(url: UrlId)
      requires minDuration == MinDuration(duration, tolerancePercentage)
      requires maxDuration == MaxDuration(duration, tolerancePercentage)
      requires liveUrls <= UrlSet(audioUrl)
      requires isRecording ==> audioUrl.None? && audioBlob.None?
      requires isPaused ==> isRecording
      requires isRecording ==> hasMediaRecorder
      modifies this
      ensures Valid()
      ensures recordingTime == old(recordingTime) && chunks == old(chunks)
      ensures hasMediaRecorder == old(hasMediaRecorder)
      ensures var autoStop := old(isRecording) && (recordingTime as real) >= maxDuration;
        if autoStop then
          && !isRecording && !isPaused && timer.None?
          && liveTimers == old(liveTimers) - TimerSet(old(timer))
          && error == DurationVerdict(recordingTime as real, minDuration, maxDuration)
          && audioBlob == Some(Blob(old(chunks), mimeType)) && audioUrl == Some(url)
          && liveUrls == old(liveUrls) + {url}
          && mediaStream.None? && liveStreams == old(liveStreams) - StreamSet(old(mediaStream))
          && liveUrls == old(liveUrls) + {url}
        else
          && isRecording == old(isRecording) && isPaused == old(isPaused)
          && audioBlob == old(audioBlob) && audioUrl == old(audioUrl) && error == old(error)
          && liveUrls == old(liveUrls)
          && timer == old(timer) && liveTimers == old(liveTimers) && liveUrls == old(liveUrls)
          && mediaStream == old(mediaStream) && liveStreams == old(liveStreams)
    {
      if recordingTime as real >= maxDuration && isRecording {
        Stop(url);
      }
    }

    /** `stopRecording` together with the recorder's `onstop` handler and the
        deferred duration verdict, taken as one step. The clip (if a
        recording was under way) is finalized; the verdict only sets `error`
        and never discards the clip. */
    method Stop(url: UrlId)
      requires minDuration == MinDuration(duration, tolerancePercentage)
      requires maxDuration == MaxDuration(duration, tolerancePercentage)
      requires liveUrls <= UrlSet(audioUrl)
      requires isRecording ==> audioUrl.None? && audioBlob.None?
      requires isPaused ==> isRecording
      requires isRecording ==> hasMediaRecorder
      modifies this
      ensures minDuration == MinDuration(duration, tolerancePercentage)
      ensures maxDuration == MaxDuration(duration, tolerancePercentage)
      ensures liveUrls <= UrlSet(audioUrl)
      ensures isPaused ==> isRecording
      ensures isRecording ==> hasMediaRecorder
      ensures var finalized := old(hasMediaRecorder && isRecording);
        if finalized then
          && audioBlob == Some(Blob(old(chunks), mimeType)) && audioUrl == Some(url)
          && liveUrls == old(liveUrls) + {url}
          && !isRecording && !isPaused
          && mediaStream.None? && liveStreams == old(liveStreams) - StreamSet(old(mediaStream))
        else
          && audioBlob == old(audioBlob) && audioUrl == old(audioUrl) && liveUrls == old(liveUrls)
          && isRecording == old(isRecording) && isPaused == old(isPaused)
          && mediaStream == old(mediaStream) && liveStreams == old(liveStreams)
      ensures timer.None? && liveTimers == old(liveTimers) - TimerSet(old(timer))
      ensures error == DurationVerdict(recordingTime as real, minDuration, maxDuration)
      ensures recordingTime == old(recordingTime) && chunks == old(chunks)
      ensures hasMediaRecorder == old(hasMediaRecorder)
    {
      if hasMediaRecorder && isRecording {
        // mediaRecorder.stop() fires onstop
        OnStop(url);
      }
      ReleaseTimer();
      // the deferred verdict
      error := DurationVerdict(recordingTime as real, minDuration, maxDuration);
    }

    /** The recorder's `onstop` handler: the clip is built from the chunks
        under the configured type, gets the fresh object URL `url`, recording
        ends, and the microphone is released. */
    method OnStop(url: UrlId)
      modifies this
      ensures audioBlob == Some(Blob(old(chunks), mimeType)) && audioUrl == Some(url)
      ensures liveUrls == old(liveUrls) + {url}
      ensures !isRecording && !isPaused
      ensures mediaStream.None? && liveStreams == old(liveStreams) - StreamSet(old(mediaStream))
      ensures timer == old(timer) && liveTimers == old(liveTimers) && error == old(error)
      ensures recordingTime == old(recordingTime) && chunks == old(chunks)
      ensures hasMediaRecorder == old(hasMediaRecorder)
    {
      audioBlob := Some(Blob(chunks, mimeType));
      audioUrl := Some(url);
      liveUrls := liveUrls + {url};
      isRecording, isPaused := false, false;
      if mediaStream.Some? {
        liveStreams := liveStreams - {mediaStream.value};
        mediaStream := None;
      }
    }

    /** `clearInterval` on the running timer, if any. */
    method ReleaseTimer()
      modifies this
      ensures timer.None? && liveTimers == old(liveTimers) - TimerSet(old(timer))
      ensures isRecording == old(isRecording) && isPaused == old(isPaused)
      ensures audioBlob == old(audioBlob) && audioUrl == old(audioUrl) && error == old(error)
      ensures liveUrls == old(liveUrls) && mediaStream == old(mediaStream) && liveStreams == old(liveStreams)
      ensures recordingTime == old(recordingTime) && chunks == old(chunks)
      ensures hasMediaRecorder == old(hasMediaRecorder)
    {
      if timer.Some? {
        liveTimers := liveTimers - {timer.value};
        timer := None;
      }
    }

    /** `startRecording`. Unsupported: sets the error and reports false.
        Otherwise revokes the previous clip's URL and resets the clip, the
        time and the error; then either the microphone request fails (error
        set, false) or capture and the one-second timer start (true). The
        auto-stop effect runs after the state change. */
    method Start(access: Outcome<StreamId>, t: TimerId, url: UrlId) returns (ok: bool)
      requires Valid()
      requires access.Ok? ==> access.value !in liveStreams
      requires t !in liveTimers
      modifies this
      ensures Valid()
      ensures ok <==> isSupported && access.Ok?
      ensures !isSupported ==>
        && error == Some(NotSupported)
        && isRecording == old(isRecording) && isPaused == old(isPaused)
        && recordingTime == old(recordingTime)
        && audioBlob == old(audioBlob) && audioUrl == old(audioUrl) && liveUrls == old(liveUrls)
        && mediaStream == old(mediaStream) && timer == old(timer) && chunks == old(chunks)
        && liveStreams == old(liveStreams) && liveTimers == old(liveTimers)
        && hasMediaRecorder == old(hasMediaRecorder)
      ensures isSupported ==> recordingTime == 0
      ensures isSupported && old(audioUrl).Some? && old(audioUrl).value != url ==> old(audioUrl).value !in liveUrls
      ensures isSupported && access.Throw? ==>
        && error == Some(StartFailed(MessageOr(access.thrown, "An unknown error occurred")))
        && !isRecording && !isPaused
        && audioBlob.None? && audioUrl.None? && liveUrls == {}
        && mediaStream == old(mediaStream) && timer == old(timer) && chunks == old(chunks)
        && liveStreams == old(liveStreams) && liveTimers == old(liveTimers)
      ensures ok && maxDuration > 0.0 ==>
        && isRecording && !isPaused && error.None?
        && audioBlob.None? && audioUrl.None? && liveUrls == {}
        && hasMediaRecorder && chunks == []
        && mediaStream == Some(access.value) && liveStreams == old(liveStreams) + {access.value}
        && timer == Some(t) && liveTimers == old(liveTimers) + {t}
    {
      if !isSupported {
        error := Some(NotSupported);
        return false;
      }
      ResetForStart();
      match access {
        case Throw(thrown) =>
          error := Some(StartFailed(MessageOr(thrown, "An unknown error occurred")));
          return false;
        case Ok(stream) =>
          Begin(stream, t);
          AutoStop(url);
          return true;
      }
    }

    /** The reset at the head of `startRecording`: the previous clip's URL is
        revoked and the clip, the time and the error are cleared. */
    method ResetForStart()
      requires Valid()
      modifies this
      ensures Valid()
      ensures !isRecording && !isPaused && recordingTime == 0
      ensures audioBlob.None? && audioUrl.None? && error.None? && liveUrls == {}
      ensures mediaStream == old(mediaStream) && timer == old(timer) && chunks == old(chunks)
      ensures liveStreams == old(liveStreams) && liveTimers == old(liveTimers)
      ensures hasMediaRecorder == old(hasMediaRecorder)
    {
      if audioUrl.Some? {
        liveUrls := liveUrls - {audioUrl.value};
      }
      isRecording, isPaused, recordingTime := false, false, 0;
      audioBlob, audioUrl, error := None, None, None;
    }

    /** Granted microphone access: a fresh recorder over `stream` with no
        chunks, the recording flag raised and the one-second timer `t`. */
    method Begin(stream: StreamId, t: TimerId)
      requires minDuration == MinDuration(duration, tolerancePercentage)
      requires maxDuration == MaxDuration(duration, tolerancePercentage)
      requires !isRecording && !isPaused && recordingTime == 0
      requires audioBlob.None? && audioUrl.None? && liveUrls == {}
      modifies this
      ensures minDuration == MinDuration(duration, tolerancePercentage)
      ensures maxDuration == MaxDuration(duration, tolerancePercentage)
      ensures isRecording && !isPaused && recordingTime == 0 && error.None?
      ensures audioBlob.None? && audioUrl.None? && liveUrls == {}
      ensures hasMediaRecorder && chunks == []
      ensures mediaStream == Some(stream) && liveStreams == old(liveStreams) + {stream}
      ensures timer == Some(t) && liveTimers == old(liveTimers) + {t}
    {
      mediaStream := Some(stream);
      liveStreams := liveStreams + {stream};
      chunks := [];
      hasMediaRecorder := true;
      isRecording, isPaused, error := true, false, None;
      timer := Some(t);
      liveTimers := liveTimers + {t};
    }

    /** `pauseRecording`: only while recording and not paused; the timer is
        cleared so the time stops advancing. */
    method Pause()
      requires Valid()
      modifies this
      ensures Valid()
      ensures var acts := old(hasMediaRecorder && isRecording && !isPaused);
        if acts then
          isPaused && timer.None? && liveTimers == old(liveTimers) - TimerSet(old(timer))
        else
          isPaused == old(isPaused) && timer == old(timer) && liveTimers == old(liveTimers)
      ensures isRecording == old(isRecording) && recordingTime == old(recordingTime)
      ensures audioBlob == old(audioBlob) && audioUrl == old(audioUrl) && error == old(error)
      ensures liveUrls == old(liveUrls) && mediaStream == old(mediaStream)
      ensures liveStreams == old(liveStreams) && chunks == old(chunks)
      ensures hasMediaRecorder == old(hasMediaRecorder)
    {
      if hasMediaRecorder && isRecording && !isPaused {
        if timer.Some? {
          liveTimers := liveTimers - {timer.value};
          timer := None;
        }
        isPaused := true;
      }
    }

    /** `resumeRecording`: only while recording and paused; a new timer `t`
        restarts the ticking and the elapsed time is kept. */
    method Resume(t: TimerId)
      requires Valid()
      requires t !in liveTimers
      modifies this
      ensures Valid()
      ensures var acts := old(hasMediaRecorder && isRecording && isPaused);
        if acts then
          !isPaused && timer == Some(t) && liveTimers == old(liveTimers) + {t}
        else
          isPaused == old(isPaused) && timer == old(timer) && liveTimers == old(liveTimers)
      ensures isRecording == old(isRecording) && recordingTime == old(recordingTime)
      ensures audioBlob == old(audioBlob) && audioUrl == old(audioUrl) && error == old(error)
      ensures liveUrls == old(liveUrls) && mediaStream == old(mediaStream)
      ensures liveStreams == old(liveStreams) && chunks == old(chunks)
      ensures hasMediaRecorder == old(hasMediaRecorder)
    {
      if hasMediaRecorder && isRecording && isPaused {
        timer := Some(t);
        liveTimers := liveTimers + {t};
        isPaused := false;
      }
    }

    /** `clearRecording`: revokes the clip's URL and resets the clip, the
        error and the time; the recording flags are left as they are. */
    method Clear()
      requires Valid()
      modifies this
      ensures Valid()
      ensures audioBlob.None? && audioUrl.None? && error.None? && recordingTime == 0
      ensures liveUrls == {}
      ensures isRecording == old(isRecording) && isPaused == old(isPaused)
      ensures timer == old(timer) && liveTimers == old(liveTimers)
      ensures mediaStream == old(mediaStream) && liveStreams == old(liveStreams)
      ensures chunks == old(chunks) && hasMediaRecorder == old(hasMediaRecorder)
    {
      if audioUrl.Some? {
        liveUrls := liveUrls - {audioUrl.value};
      }
      audioBlob, audioUrl, recordingTime, error := None, None, 0, None;
    }

    /** `clearError` */
    method ClearError()
      requires Valid()
      modifies this
      ensures Valid()
      ensures error.None?
      ensures isRecording == old(isRecording) && isPaused == old(isPaused)
      ensures recordingTime == old(recordingTime)
      ensures audioBlob == old(audioBlob) && audioUrl == old(audioUrl)
      ensures chunks == old(chunks) && hasMediaRecorder == old(hasMediaRecorder)
      ensures timer == old(timer) && liveTimers == old(liveTimers) && liveUrls == old(liveUrls)
      ensures mediaStream == old(mediaStream) && liveStreams == old(liveStreams)
    {
      error := None;
    }

    /** The recorder's `ondataavailable` handler: non-empty chunks are kept. */
    method DataAvailable(c: Chunk, size: nat)
      requires Valid()
      modifies this
      ensures Valid()
      ensures chunks == if size > 0 then old(chunks) + [c] else old(chunks)
      ensures isRecording == old(isRecording) && isPaused == old(isPaused)
      ensures recordingTime == old(recordingTime) && hasMediaRecorder == old(hasMediaRecorder)
      ensures audioBlob == old(audioBlob) && audioUrl == old(audioUrl) && error == old(error)
      ensures timer == old(timer) && liveTimers == old(liveTimers) && liveUrls == old(liveUrls)
      ensures mediaStream == old(mediaStream) && liveStreams == old(liveStreams)
    {
      if size > 0 {
        chunks := chunks + [c];
      }
    }

    /** The recorder's `onerror` handler. The interval is not cleared. */
    method RecorderError()
      requires Valid()
      modifies this
      ensures Valid()
      ensures error == Some(RecordingFailed) && !isRecording && !isPaused
      ensures recordingTime == old(recordingTime)
      ensures audioBlob == old(audioBlob) && audioUrl == old(audioUrl)
      ensures chunks == old(chunks) && hasMediaRecorder == old(hasMediaRecorder)
      ensures timer == old(timer) && liveTimers == old(liveTimers) && liveUrls == old(liveUrls)
      ensures mediaStream == old(mediaStream) && liveStreams == old(liveStreams)
    {
      error := Some(RecordingFailed);
      isRecording, isPaused := false, false;
    }

    /** `cleanup` on unmount: the interval is cleared, the microphone tracks
        stopped and the clip's URL revoked; the refs and the state record are
        not reset. */
    method Cleanup()
      requires Valid()
      modifies this
      ensures Valid()
      ensures liveUrls == {}
      ensures liveTimers == old(liveTimers) - TimerSet(timer)
      ensures liveStreams == old(liveStreams) - StreamSet(mediaStream)
      ensures timer == old(timer) && mediaStream == old(mediaStream)
      ensures isRecording == old(isRecording) && isPaused == old(isPaused)
      ensures recordingTime == old(recordingTime)
      ensures audioBlob == old(audioBlob) && audioUrl == old(audioUrl) && error == old(error)
      ensures chunks == old(chunks) && hasMediaRecorder == old(hasMediaRecorder)
    {
      if timer.Some? {
        liveTimers := liveTimers - {timer.value};
      }
      if mediaStream.Some? {
        liveStreams := liveStreams - {mediaStream.value};
      }
      if audioUrl.Some? {
        liveUrls := liveUrls - {audioUrl.value};
      }
    }
  }

  /** The end-to-end scenario of a 10 s target with 20% tolerance: a
      recording that runs on reaches 12 s and stops itself there, with the
      "too long" verdict only if it passed the bound, and keeps its clip. */
  method AutoStopScenario() returns (r: AudioRecorder)
    ensures !r.isRecording && r.recordingTime == 12
    ensures r.HasRecording() && r.audioUrl == Some(100)
    ensures r.error.None? && r.IsValidDuration()
  {
    r := new AudioRecorder(DefaultDuration, DefaultTolerancePercentage, DefaultMimeType, true);
    DefaultWindow();
    var ok := r.Start(Ok(1), 7, 99);
    assert ok && r.isRecording;
    r.DataAvailable(5, 10);
    var i := 0;
    while i < 12
      invariant 0 <= i <= 12
      invariant r.Valid() && r.recordingTime == i
      invariant i < 12 ==> r.isRecording && r.timer == Some(7) && r.liveTimers == {7}
      invariant r.hasMediaRecorder && r.maxDuration == 12.0 && r.minDuration == 8.0
      invariant i < 12 ==> r.audioBlob.None?
      invariant i == 12 ==> !r.isRecording && r.audioUrl == Some(100) && r.audioBlob.Some?
      invariant i == 12 ==> r.error.None?
      modifies r
    {
      r.Tick(100);
      i := i + 1;
    }
  }
}
