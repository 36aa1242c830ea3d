/** The waveform player: a one-shot engine initialisation triggered by the
    first non-zero width the resize observer reports, the engine's events
    updating the shown flags, the guarded speed change, unmount cleanup,
    and the `m:ss` time display. The engine is represented by the state the
    component drives (position, rate, playing); its events are method
    calls. */
module AudioPlayer {
  import opened Wrappers
  import opened Text
  import opened Model

  const LoadError: string := "Error al cargar el audio."

  /** The part of the engine the component drives. */
  datatype Engine = Engine(position: real, rate: real, playing: bool)

  /** `Math.floor(t / 60)` for a non-negative time. */
  function WholeMinutes(t: real): (m: nat)
    requires t >= 0.0
    ensures m as real <= t / 60.0 < m as real + 1.0
  {
    (t / 60.0).Floor
  }

  /** `Math.floor(t % 60)` for a non-negative time: what is left of the
      whole seconds after the whole minutes, fewer than 60. */
  function SecondsInMinute(t: real): (sec: nat)
    requires t >= 0.0
    ensures sec < 60
    ensures WholeMinutes(t) * 60 + sec == t.Floor
  {
    var m := WholeMinutes(t);
    var r := t - 60.0 * m as real;
    assert 0.0 <= r < 60.0;
    assert r.Floor + 60 * m == t.Floor by {
      var f := r.Floor;
      assert f as real <= r < f as real + 1.0;
      assert (f + 60 * m) as real <= t < (f + 60 * m) as real + 1.0;
    }
    r.Floor
  }

  /** `formatTime`: "0:00" for NaN or a negative time; otherwise the whole
      minutes, a colon, and the whole seconds within the minute in two
      digits. */
  function FormatTime(time: Number): (s: string)
    ensures time.NaN? || time.value < 0.0 ==> s == "0:00"
    ensures time.Finite? && time.value >= 0.0 ==>
      && |s| >= 4 && s[|s| - 3] == ':'
      && AllDigits(s[..|s| - 3]) && AllDigits(s[|s| - 2..])
      && DigitsValue(s[|s| - 2..]) < 60
      && DigitsValue(s[..|s| - 3]) * 60 + DigitsValue(s[|s| - 2..]) == time.value.Floor
  {
    if time.NaN? || time.value < 0.0 then "0:00"
    else
      var head := NatToString(WholeMinutes(time.value));
      NatToStringRoundTrip(WholeMinutes(time.value));
      var tail := TwoDigits(SecondsInMinute(time.value));
      var s := head + ":" + tail;
      assert s[..|s| - 3] == head && s[|s| - 2..] == tail;
      s
  }

  /** A whole number of seconds shows as its minutes and seconds. */
  lemma FormatTimeWholeSeconds(m: nat, sec: nat)
    requires sec < 60
    ensures FormatTime(Finite((m * 60 + sec) as real)) == NatToString(m) + ":" + TwoDigits(sec)
  {
    WholeSecondsSplit(m, sec);
  }

  /** The minutes and seconds of `m * 60 + sec` seconds are `m` and `sec`. */
  lemma WholeSecondsSplit(m: nat, sec: nat)
    requires sec < 60
    ensures WholeMinutes((m * 60 + sec) as real) == m
    ensures SecondsInMinute((m * 60 + sec) as real) == sec
  {
    var t := (m * 60 + sec) as real;
    assert t / 60.0 == m as real + sec as real / 60.0;
    assert WholeMinutes(t) == m;
    assert t.Floor == m * 60 + sec;
  }

  class Player {
    var isLoading: bool
    var isPlaying: bool
    var duration: Number
    var playbackRate: real
    var error: Option<string>
    var currentTime: Number
    /** `wavesurferRef.current` */
    var engine: Option<Engine>
    /** The resize observer is connected. */
    var observing: bool
    /** Engines created since the mount effect last ran (it runs again
        whenever the clip or a colour changes). */
    ghost var created: nat

    /** At most one engine per run of the mount effect, that is per clip
        and colours; while the observer waits there is none yet, and a live
        engine is the one that was created. */
    ghost predicate Valid()
      reads this
    {
      && created <= 1
      && (observing ==> created == 0 && engine.None?)
      && (engine.Some? ==> created == 1)
    }

    /** Mount. The observer is connected only when the container exists. */
    constructor (hasContainer: bool)
      ensures Valid()
      ensures isLoading && !isPlaying && duration == Finite(0.0) && playbackRate == 1.0
      ensures error.None? && currentTime == Finite(0.0)
      ensures engine.None? && observing == hasContainer && created == 0
    {
      isLoading, isPlaying := true, false;
      duration, playbackRate := Finite(0.0), 1.0;
      error, currentTime := None, Finite(0.0);
      engine := None;
      observing := hasContainer;
      created := 0;
    }

    /** `initializeWaveSurfer`: nothing when an engine exists; otherwise
        loading restarts, the error and time are cleared and a new engine,
        at the start and at normal speed, begins loading the clip. */
    method InitializeWaveSurfer()
      modifies this
      ensures old(engine).Some? ==>
        && engine == old(engine) && created == old(created)
        && isLoading == old(isLoading) && error == old(error) && currentTime == old(currentTime)
      ensures old(engine).None? ==>
        && engine == Some(Engine(0.0, 1.0, false)) && created == old(created) + 1
        && isLoading && error.None? && currentTime == Finite(0.0)
      ensures observing == old(observing) && isPlaying == old(isPlaying)
      ensures duration == old(duration) && playbackRate == old(playbackRate)
    {
      if engine.Some? {
        return;
      }
      isLoading := true;
      error := None;
      currentTime := Finite(0.0);
      engine := Some(Engine(0.0, 1.0, false));
      created := created + 1;
    }

    /** The resize observer's callback with the container's new width: the
        first positive width initialises the engine and disconnects the
        observer; a disconnected observer reports nothing. */
    method Resize(width: real)
      requires Valid()
      modifies this
      ensures Valid()
      ensures old(observing) && width > 0.0 ==>
        && created == old(created) + 1 && !observing
        && engine == Some(Engine(0.0, 1.0, false)) && isLoading && error.None? && currentTime == Finite(0.0)
      ensures !(old(observing) && width > 0.0) ==>
        && created == old(created) && engine == old(engine) && observing == old(observing)
        && isLoading == old(isLoading) && error == old(error) && currentTime == old(currentTime)
      ensures isPlaying == old(isPlaying) && duration == old(duration) && playbackRate == old(playbackRate)
    {
      if observing && width > 0.0 {
        InitializeWaveSurfer();
        observing := false;
      }
    }

    /** "ready": the clip's duration is shown and loading ends. */
    method OnReady(clipDuration: Number)
      requires engine.Some?
      modifies this
      ensures duration == clipDuration && !isLoading
      ensures error == old(error) && isPlaying == old(isPlaying) && currentTime == old(currentTime)
      ensures engine == old(engine) && observing == old(observing) && created == old(created)
      ensures playbackRate == old(playbackRate)
    {
      duration := clipDuration;
      isLoading := false;
    }

    /** "error": the load error is shown and loading ends. */
    method OnError()
      requires engine.Some?
      modifies this
      ensures error == Some(LoadError) && !isLoading
      ensures duration == old(duration) && isPlaying == old(isPlaying) && currentTime == old(currentTime)
      ensures engine == old(engine) && observing == old(observing) && created == old(created)
      ensures playbackRate == old(playbackRate)
    {
      error := Some(LoadError);
      isLoading := false;
    }

    /** "play" and "pause" set the playing flag. */
    method OnPlayState(playing: bool)
      requires engine.Some?
      modifies this
      ensures isPlaying == playing
      ensures isLoading == old(isLoading) && error == old(error) && duration == old(duration)
      ensures currentTime == old(currentTime) && playbackRate == old(playbackRate)
      ensures engine == old(engine) && observing == old(observing) && created == old(created)
    {
      isPlaying := playing;
    }

    /** "finish": playing stops and the engine seeks back to the start. */
    method OnFinish()
      requires engine.Some?
      modifies this
      ensures !isPlaying && engine == Some(old(engine).value.(position := 0.0))
      ensures isLoading == old(isLoading) && error == old(error) && duration == old(duration)
      ensures currentTime == old(currentTime) && playbackRate == old(playbackRate)
      ensures observing == old(observing) && created == old(created)
    {
      isPlaying := false;
      engine := Some(engine.value.(position := 0.0));
    }

    /** "timeupdate": the shown time follows the engine. */
    method OnTimeUpdate(time: Number)
      requires engine.Some?
      modifies this
      ensures currentTime == time
      ensures isLoading == old(isLoading) && error == old(error) && duration == old(duration)
      ensures isPlaying == old(isPlaying) && playbackRate == old(playbackRate)
      ensures engine == old(engine) && observing == old(observing) && created == old(created)
    {
      currentTime := time;
    }

    /** Play and speed buttons are disabled while loading or after an
        error. */
    predicate ControlsDisabled()
      reads this
    {
      isLoading || Truthy(error)
    }

    /** `togglePlayPause`: asks a live engine to switch between playing and
        paused (its "play"/"pause" event then updates the flag); without an
        engine nothing happens. */
    method TogglePlayPause()
      modifies this
      ensures old(engine).None? ==> engine.None?
      ensures old(engine).Some? ==> engine == Some(old(engine).value.(playing := !old(engine).value.playing))
      ensures isPlaying == old(isPlaying) && isLoading == old(isLoading) && error == old(error)
      ensures duration == old(duration) && currentTime == old(currentTime) && playbackRate == old(playbackRate)
      ensures observing == old(observing) && created == old(created)
    {
      if engine.Some? {
        engine := Some(engine.value.(playing := !engine.value.playing));
      }
    }

    /** `handleSpeedChange`: with an engine, the engine and the shown rate
        both take the new speed; without one, nothing changes. */
    method HandleSpeedChange(speed: real)
      modifies this
      ensures old(engine).Some? ==> playbackRate == speed && engine == Some(old(engine).value.(rate := speed))
      ensures old(engine).None? ==> playbackRate == old(playbackRate) && engine.None?
      ensures isPlaying == old(isPlaying) && isLoading == old(isLoading) && error == old(error)
      ensures duration == old(duration) && currentTime == old(currentTime)
      ensures observing == old(observing) && created == old(created)
    {
      if engine.Some? {
        engine := Some(engine.value.(rate := speed));
        playbackRate := speed;
      }
    }

    /** Unmount: the observer is disconnected and the engine destroyed;
        no later resize can create another. */
    method Cleanup()
      requires Valid()
      modifies this
      ensures Valid()
      ensures !observing && engine.None? && created == old(created)
      ensures isPlaying == old(isPlaying) && isLoading == old(isLoading) && error == old(error)
      ensures duration == old(duration) && currentTime == old(currentTime) && playbackRate == old(playbackRate)
    {
      observing := false;
      engine := None;
    }

    /** A new clip or colour while mounted: the effect's cleanup
        disconnects the observer and destroys the engine, then the effect
        runs again and connects a new observer when the container exists,
        so the next positive width creates a fresh engine. The shown state
        is left as it was until then. */
    method PropsChanged(hasContainer: bool)
      requires Valid()
      modifies this
      ensures Valid()
      ensures engine.None? && observing == hasContainer && created == 0
      ensures isPlaying == old(isPlaying) && isLoading == old(isLoading) && error == old(error)
      ensures duration == old(duration) && currentTime == old(currentTime) && playbackRate == old(playbackRate)
    {
      Cleanup();
      observing := hasContainer;
      created := 0;
    }
  }

  /** Changing the clip after one has loaded: the old engine is gone and
      the next positive width creates one new engine for the new clip. */
  method SwitchClipScenario() returns (p: Player)
    ensures p.Valid() && p.created == 1 && !p.observing
    ensures p.engine == Some(Engine(0.0, 1.0, false)) && p.isLoading && p.error.None?
  {
    p := new Player(true);
    p.Resize(320.0);
    p.OnReady(Finite(3.0));
    p.PropsChanged(true);
    assert p.engine.None? && p.observing;
    p.Resize(320.0);
  }

  /** A mounted player whose clip loads: the first positive width creates
      the one engine, later resizes create none, "ready" enables the
      controls, and a speed change then takes effect. */
  method LoadScenario(clipDuration: real) returns (p: Player)
    ensures p.Valid() && p.created == 1 && !p.observing
    ensures !p.ControlsDisabled() && p.duration == Finite(clipDuration)
    ensures p.playbackRate == 1.5 && p.engine == Some(Engine(0.0, 1.5, false))
  {
    p := new Player(true);
    p.Resize(0.0);
    assert p.created == 0;
    assert p.observing;
    p.Resize(320.0);
    assert p.created == 1 && p.engine.Some? && !p.observing;
    p.Resize(640.0);
    assert p.engine.Some?;
    p.OnReady(Finite(clipDuration));
    p.HandleSpeedChange(1.5);
  }
}
