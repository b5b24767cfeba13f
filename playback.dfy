/**
 * The per-item audio player: one sound loaded from the item's audio file, a
 * play/pause toggle, a once-a-second interval that advances the elapsed time,
 * a stop command, a seek slider and like/share counters. The sound library and
 * the interval are abstract: loading reports success with a duration or
 * failure, the interval delivers tick events while it is set, and the sound's
 * own end of playback arrives as an event. Time is in whole seconds.
 */
module Playback {

  /** What the sound library reports once it has tried to load the audio file. */
  datatype LoadResult = LoadFailed | Loaded(duration: nat)

  /**
   * The component's state: `soundRef.current` (set or not, and whether the
   * cleanup has released it), `isPlaying`, `currentTime`, `duration`, whether
   * `timerRef.current` holds a running interval, and the two counters.
   */
  datatype PlayerState = PlayerState(
    soundSet: bool,
    soundReleased: bool,
    isPlaying: bool,
    currentTime: int,
    duration: int,
    timerActive: bool,
    likeCount: int,
    shareCount: int)

  /** The state after an event and whether the event raised `onAudioEnd`. */
  datatype Step = Step(state: PlayerState, audioEnded: bool)

  /** A freshly mounted player. */
  const Initial := PlayerState(false, false, false, 0, 0, false, 0, 0)

  /** An interval runs only while playing, and nothing plays without a sound. */
  predicate Consistent(s: PlayerState)
  {
    (s.timerActive ==> s.isPlaying) && (s.isPlaying ==> s.soundSet)
  }

  /** The load callback: on success the duration and the sound are stored; a failure changes nothing. */
  function Load(s: PlayerState, result: LoadResult): (r: PlayerState)
    ensures result.LoadFailed? ==> r == s
    ensures result.Loaded? ==> r.soundSet && !r.soundReleased && r.duration == result.duration
    ensures result.Loaded? ==> r == s.(soundSet := true, soundReleased := false, duration := result.duration)
    ensures Consistent(s) ==> Consistent(r)
  {
    match result
    case LoadFailed => s
    case Loaded(d) => s.(duration := d, soundSet := true, soundReleased := false)
  }

  /** The effect's cleanup: a set sound is stopped and released; the interval is cleared. */
  function Cleanup(s: PlayerState): (r: PlayerState)
    ensures !r.timerActive
    ensures !s.soundSet ==> r == s.(timerActive := false)
    ensures s.soundSet ==> r == s.(soundReleased := true, timerActive := false)
    ensures Consistent(s) ==> Consistent(r)
  {
    s.(soundReleased := s.soundReleased || s.soundSet, timerActive := false)
  }

  /**
   * `playPauseAudio`: without a sound nothing happens; while playing it pauses
   * and clears the interval; while paused it plays and starts the interval.
   */
  function PlayPause(s: PlayerState): (r: PlayerState)
    ensures !s.soundSet ==> r == s
    ensures s.soundSet && s.isPlaying ==> r == s.(isPlaying := false, timerActive := false)
    ensures s.soundSet && !s.isPlaying ==> r == s.(isPlaying := true, timerActive := true)
    ensures Consistent(s) ==> Consistent(r)
  {
    if !s.soundSet then s
    else if s.isPlaying then s.(isPlaying := false, timerActive := false)
    else s.(isPlaying := true, timerActive := true)
  }

  /**
   * One firing of the interval: below the duration the elapsed time goes up by
   * one second; otherwise it is pinned to the duration, playback and interval
   * stop and `onAudioEnd` is raised. With no interval set no tick arrives.
   */
  function Tick(s: PlayerState): (r: Step)
    ensures !s.timerActive ==> r == Step(s, false)
    ensures s.timerActive && s.currentTime < s.duration ==>
      r == Step(s.(currentTime := s.currentTime + 1), false)
    ensures s.timerActive && s.currentTime >= s.duration ==>
      r == Step(s.(isPlaying := false, timerActive := false, currentTime := s.duration), true)
    ensures s.currentTime <= s.duration ==> r.state.currentTime <= s.duration
    ensures r.audioEnded ==> !r.state.timerActive
    ensures Consistent(s) ==> Consistent(r.state)
  {
    if !s.timerActive then Step(s, false)
    else if s.currentTime < s.duration then Step(s.(currentTime := s.currentTime + 1), false)
    else Step(s.(isPlaying := false, timerActive := false, currentTime := s.duration), true)
  }

  /**
   * The sound's own completion callback: on success, playback and interval
   * stop, `onAudioEnd` is raised and the elapsed time goes back to 0.
   */
  function Finished(s: PlayerState, success: bool): (r: Step)
    ensures !success ==> r == Step(s, false)
    ensures success ==> r == Step(s.(isPlaying := false, timerActive := false, currentTime := 0), true)
    ensures Consistent(s) ==> Consistent(r.state)
  {
    if success then Step(s.(isPlaying := false, timerActive := false, currentTime := 0), true)
    else Step(s, false)
  }

  /** `stopAudio`: with a sound, playback stops, the elapsed time is 0 and the interval is cleared. */
  function Stop(s: PlayerState): (r: PlayerState)
    ensures !s.soundSet ==> r == s
    ensures s.soundSet ==> r == s.(isPlaying := false, currentTime := 0, timerActive := false)
    ensures Consistent(s) ==> Consistent(r)
  {
    if s.soundSet then s.(isPlaying := false, currentTime := 0, timerActive := false) else s
  }

  /** `handleSliderChange(value)`: with a sound, the elapsed time becomes `value` (not clamped). */
  function Seek(s: PlayerState, value: int): (r: PlayerState)
    ensures !s.soundSet ==> r == s
    ensures s.soundSet ==> r == s.(currentTime := value)
    ensures Consistent(s) ==> Consistent(r)
  {
    if s.soundSet then s.(currentTime := value) else s
  }

  /**
   * The slider reports values between 0 and the duration. A seek to such a value
   * keeps the elapsed time within the duration over any number of later ticks.
   */
  lemma {:induction false} SliderSeekStaysWithinDuration(s: PlayerState, value: int, k: nat)
    requires s.currentTime <= s.duration && 0 <= value <= s.duration
    ensures Seek(s, value).currentTime <= s.duration
    ensures AfterTicks(Seek(s, value), k).currentTime <= s.duration
  {
    TicksStayWithinDuration(Seek(s, value), k);
  }

  /** `handleLike`: one more like, nothing else. */
  function Like(s: PlayerState): (r: PlayerState)
    ensures r.likeCount == s.likeCount + 1 && r.(likeCount := s.likeCount) == s
  {
    s.(likeCount := s.likeCount + 1)
  }

  /** `handleShare`: one more share, nothing else. */
  function Share(s: PlayerState): (r: PlayerState)
    ensures r.shareCount == s.shareCount + 1 && r.(shareCount := s.shareCount) == s
  {
    s.(shareCount := s.shareCount + 1)
  }

  /** A player whose only load failed has no sound, so the controls do nothing. */
  lemma FailedLoadIsInert(value: int)
    ensures !Load(Initial, LoadFailed).soundSet
    ensures PlayPause(Load(Initial, LoadFailed)) == Load(Initial, LoadFailed)
    ensures Stop(Load(Initial, LoadFailed)) == Load(Initial, LoadFailed)
    ensures Seek(Load(Initial, LoadFailed), value) == Load(Initial, LoadFailed)
  {
  }

  /** Pausing and resuming keeps the elapsed time, and playback runs again with an interval. */
  lemma PauseResumeKeepsPosition(s: PlayerState)
    requires s.soundSet && s.isPlaying
    ensures PlayPause(PlayPause(s)).currentTime == s.currentTime
    ensures PlayPause(PlayPause(s)).isPlaying && PlayPause(PlayPause(s)).timerActive
  {
  }

  /** The state after `k` interval events. */
  function AfterTicks(s: PlayerState, k: nat): PlayerState
    decreases k
  {
    if k == 0 then s else AfterTicks(Tick(s).state, k - 1)
  }

  /** How many of `k` interval events raised `onAudioEnd`. */
  function EndsRaised(s: PlayerState, k: nat): nat
    decreases k
  {
    if k == 0 then 0 else (if Tick(s).audioEnded then 1 else 0) + EndsRaised(Tick(s).state, k - 1)
  }

  /** Ticks never take the elapsed time past the duration, and never change the duration. */
  lemma {:induction false} TicksStayWithinDuration(s: PlayerState, k: nat)
    requires s.currentTime <= s.duration
    ensures AfterTicks(s, k).currentTime <= s.duration
    ensures AfterTicks(s, k).duration == s.duration
    decreases k
  {
    if k > 0 {
      TicksStayWithinDuration(Tick(s).state, k - 1);
    }
  }

  /** While the duration is not reached, each tick counts exactly one second and playback goes on. */
  lemma {:induction false} TicksCountSeconds(s: PlayerState, k: nat)
    requires s.timerActive && s.currentTime + k <= s.duration
    ensures AfterTicks(s, k) == s.(currentTime := s.currentTime + k)
    decreases k
  {
    if k > 0 {
      TicksCountSeconds(Tick(s).state, k - 1);
    }
  }

  /** Without an interval, no tick raises `onAudioEnd`. */
  lemma {:induction false} NoTimerNoEnds(s: PlayerState, k: nat)
    requires !s.timerActive
    ensures EndsRaised(s, k) == 0 && AfterTicks(s, k) == s
    decreases k
  {
    if k > 0 {
      NoTimerNoEnds(s, k - 1);
    }
  }

  /** However many ticks arrive, the interval raises `onAudioEnd` at most once. */
  lemma {:induction false} TicksEndAtMostOnce(s: PlayerState, k: nat)
    ensures EndsRaised(s, k) <= 1
    decreases k
  {
    if k > 0 {
      if Tick(s).audioEnded {
        NoTimerNoEnds(Tick(s).state, k - 1);
      } else {
        TicksEndAtMostOnce(Tick(s).state, k - 1);
      }
    }
  }

  /**
   * Started at elapsed time `t <= duration`, the interval raises `onAudioEnd`
   * exactly once within `duration - t + 1` ticks and leaves playback stopped
   * with the elapsed time at the duration.
   */
  lemma PlayRunsToEnd(s: PlayerState)
    requires s.timerActive && 0 <= s.currentTime <= s.duration
    ensures EndsRaised(s, s.duration - s.currentTime + 1) == 1
    ensures var e := AfterTicks(s, s.duration - s.currentTime + 1);
      e.currentTime == s.duration && !e.isPlaying && !e.timerActive
  {
    var k := s.duration - s.currentTime;
    TicksCountSeconds(s, k);
    RunsThenAt(s, k);
  }

  /** `k` counting ticks followed by one more tick. */
  lemma {:induction false} RunsThenAt(s: PlayerState, k: nat)
    requires s.timerActive && s.currentTime + k == s.duration
    ensures EndsRaised(s, k + 1) == 1
    ensures AfterTicks(s, k + 1) == Tick(s.(currentTime := s.duration)).state
    decreases k
  {
    if k == 0 {
      assert s.(currentTime := s.duration) == s;
      assert AfterTicks(Tick(s).state, 0) == Tick(s).state;
      assert EndsRaised(Tick(s).state, 0) == 0;
    } else {
      RunsThenAt(Tick(s).state, k - 1);
    }
  }

  /** The player component: React state and refs as fields of one object. */
  class AudioPlayer {
    var soundSet: bool
    var soundReleased: bool
    var isPlaying: bool
    var currentTime: int
    var duration: int
    var timerActive: bool
    var likeCount: int
    var shareCount: int

    function State(): PlayerState
      reads this
    {
      PlayerState(soundSet, soundReleased, isPlaying, currentTime, duration, timerActive, likeCount, shareCount)
    }

    ghost predicate Valid()
      reads this
    {
      Consistent(State())
    }

    /** Mount: nothing loaded, paused at 0 of 0 seconds, no interval, no likes or shares. */
    constructor ()
      ensures Valid() && State() == Initial
    {
      soundSet, soundReleased, isPlaying := false, false, false;
      currentTime, duration, timerActive := 0, 0, false;
      likeCount, shareCount := 0, 0;
    }

    method OnLoaded(result: LoadResult)
      requires Valid()
      modifies this
      ensures Valid() && State() == Load(old(State()), result)
    {
      if result.Loaded? {
        duration := result.duration;
        soundSet := true;
        soundReleased := false;
      }
    }

    method CleanUp()
      requires Valid()
      modifies this
      ensures Valid() && State() == Cleanup(old(State()))
    {
      if soundSet {
        soundReleased := true;
      }
      if timerActive {
        timerActive := false;
      }
    }

    method PlayPauseAudio()
      requires Valid()
      modifies this
      ensures Valid() && State() == PlayPause(old(State()))
    {
      if soundSet {
        if isPlaying {
          timerActive := false;
          isPlaying := false;
        } else {
          isPlaying := true;
          timerActive := true;
        }
      }
    }

    method OnTick() returns (audioEnded: bool)
      requires Valid()
      modifies this
      ensures Valid() && Step(State(), audioEnded) == Tick(old(State()))
    {
      audioEnded := false;
      if timerActive {
        if currentTime < duration {
          currentTime := currentTime + 1;
        } else {
          timerActive := false;
          isPlaying := false;
          audioEnded := true;
          currentTime := duration;
        }
      }
    }

    method OnPlaybackFinished(success: bool) returns (audioEnded: bool)
      requires Valid()
      modifies this
      ensures Valid() && Step(State(), audioEnded) == Finished(old(State()), success)
    {
      audioEnded := false;
      if success {
        isPlaying := false;
        timerActive := false;
        audioEnded := true;
        currentTime := 0;
      }
    }

    method StopAudio()
      requires Valid()
      modifies this
      ensures Valid() && State() == Stop(old(State()))
    {
      if soundSet {
        isPlaying := false;
        currentTime := 0;
        timerActive := false;
      }
    }

    method HandleSliderChange(value: int)
      requires Valid()
      modifies this
      ensures Valid() && State() == Seek(old(State()), value)
    {
      if soundSet {
        currentTime := value;
      }
    }

    method HandleLike()
      requires Valid()
      modifies this
      ensures Valid() && State() == Like(old(State()))
    {
      likeCount := likeCount + 1;
    }

    method HandleShare()
      requires Valid()
      modifies this
      ensures Valid() && State() == Share(old(State()))
    {
      shareCount := shareCount + 1;
    }
  }
}
