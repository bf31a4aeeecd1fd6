/**
 * The audio manager: track selection, play/stop flags, the backup beat
 * timer, the volume target and the RMS beat detector.  The synthesis engine
 * (player, effect chain, analyser, ramps) is outside the model; its clock and
 * its waveform reach the beat detector as arguments of one tick.
 */
module Audio {
  import opened Common
  import opened RealSums

  /** One entry of the fixed playlist. */
  datatype Track = Track(name: string, bpm: nat, genre: string)

  /** The playlist built at start-up, in playing order. */
  const DefaultTracks: seq<Track> := [
    Track("House Vibes", 128, "house"),
    Track("Techno Drive", 140, "techno"),
    Track("Ambient Space", 90, "ambient")
  ]

  /** The beat detector fires only when the RMS of a window exceeds this level. */
  const BeatThreshold: real := 0.8

  /** The level the fade-out of a crossfade (and volume 0) ramps to, in dB. */
  const SilenceDb: real := -60.0

  /** The master level at start-up and after a crossfade, in dB. */
  const FullDb: real := -6.0

  // ---------------------------------------------------------------------
  // Track-index arithmetic

  /** The track `nextTrack` moves to: one further, wrapping past the last. */
  function NextIndex(current: nat, count: nat): (next: nat)
    requires count > 0
    ensures next < count
    ensures current + 1 < count ==> next == current + 1
    ensures current + 1 == count ==> next == 0
  {
    (current + 1) % count
  }

  /** The track `previousTrack` moves to; it is the index that `NextIndex` maps onto `current`. */
  function PreviousIndex(current: nat, count: nat): (prev: nat)
    requires count > 0
    ensures current < count ==> prev < count && NextIndex(prev, count) == current
    ensures current == 0 ==> prev == count - 1
  {
    if current == 0 then count - 1 else current - 1
  }

  /** Stepping forward and then back returns to the same valid track. */
  lemma PreviousUndoesNext(current: nat, count: nat)
    requires current < count
    ensures PreviousIndex(NextIndex(current, count), count) == current
  {
    if current + 1 < count {
      assert NextIndex(current, count) == current + 1;
    } else {
      assert NextIndex(current, count) == 0;
    }
  }

  // ---------------------------------------------------------------------
  // Volume

  /** The dB level `setVolume` ramps to for a volume on the 0..1 scale. */
  function VolumeToDb(volume: real): (db: real)
    ensures volume == 0.0 ==> db == SilenceDb
    ensures volume == 1.0 ==> db == FullDb
    ensures 0.0 <= volume <= 1.0 ==> SilenceDb <= db <= FullDb
  {
    if volume == 0.0 then SilenceDb else SilenceDb + volume * 54.0
  }

  /** A louder setting never gives a lower level. */
  lemma VolumeToDbMonotonic(a: real, b: real)
    requires a <= b
    ensures VolumeToDb(a) <= VolumeToDb(b)
  {
  }

  // ---------------------------------------------------------------------
  // RMS of a waveform window

  /** The squared samples of a window. */
  function Squares(w: seq<real>): (sq: seq<real>)
    ensures |sq| == |w|
    ensures forall i :: 0 <= i < |w| ==> sq[i] == w[i] * w[i]
  {
    seq(|w|, i requires 0 <= i < |w| => w[i] * w[i])
  }

  /** The mean of the squared samples: the square of the window's RMS. */
  function MeanSquare(w: seq<real>): real
    requires |w| > 0
  {
    Sum(Squares(w)) / |w| as real
  }

  /** A window's mean square is never negative, so it has a real square root. */
  lemma MeanSquareNonNegative(w: seq<real>)
    requires |w| > 0
    ensures MeanSquare(w) >= 0.0
  {
    SumNonNegative(Squares(w));
  }

  /** A constant window `a` has mean square `a * a`. */
  lemma MeanSquareOfConstantWindow(w: seq<real>, a: real)
    requires |w| > 0
    requires forall i :: 0 <= i < |w| ==> w[i] == a
    ensures MeanSquare(w) == a * a
  {
    SumConstant(Squares(w), a * a);
    var n := |w| as real;
    assert Sum(Squares(w)) == n * (a * a);
    assert (n * (a * a)) / n == a * a;
  }

  /** The RMS of a constant window `a` is `|a|`: any non-negative root of its mean square equals `Abs(a)`. */
  lemma RmsOfConstantWindow(w: seq<real>, a: real, rms: real)
    requires |w| > 0
    requires forall i :: 0 <= i < |w| ==> w[i] == a
    requires rms >= 0.0 && rms * rms == MeanSquare(w)
    ensures rms == Abs(a)
  {
    MeanSquareOfConstantWindow(w, a);
    var b := Abs(a);
    assert b * b == a * a;
    RmsAboveThresholdBySquares(rms, b);
    RmsAboveThresholdBySquares(b, rms);
  }

  /** An all-zero window has RMS zero. */
  lemma RmsOfSilentWindow(w: seq<real>, rms: real)
    requires |w| > 0
    requires forall i :: 0 <= i < |w| ==> w[i] == 0.0
    requires rms >= 0.0 && rms * rms == MeanSquare(w)
    ensures rms == 0.0
  {
    RmsOfConstantWindow(w, 0.0, rms);
  }

  /** Comparing the RMS with the threshold is the same as comparing their squares. */
  lemma RmsAboveThresholdBySquares(rms: real, threshold: real)
    requires rms >= 0.0 && threshold >= 0.0
    ensures rms > threshold <==> rms * rms > threshold * threshold
  {
    if rms > threshold {
      assert rms * rms >= rms * threshold;
      assert rms * threshold >= threshold * threshold;
      assert rms * rms > threshold * threshold by {
        assert rms * rms - threshold * threshold == (rms - threshold) * (rms + threshold);
        assert rms + threshold > 0.0;
      }
    } else {
      assert rms * rms <= rms * threshold;
      assert rms * threshold <= threshold * threshold;
    }
  }

  // ---------------------------------------------------------------------
  // The beat gate

  /** Eighty percent of one beat period (60/bpm seconds): the refractory window. */
  function RefractoryWindow(bpm: nat): (w: real)
    requires bpm > 0
    ensures w > 0.0
  {
    60.0 / bpm as real * 0.8
  }

  /** The period of the backup beat timer, in milliseconds. */
  function BeatPeriodMs(bpm: nat): (ms: real)
    requires bpm > 0
    ensures ms > 0.0
    ensures RefractoryWindow(bpm) * 1000.0 == 0.8 * ms
  {
    (60.0 / bpm as real) * 1000.0
  }

  /** The detector's test on one window: energy above the threshold and the refractory window elapsed. */
  predicate BeatFires(rmsSquared: real, threshold: real, now: real, lastBeatTime: real, bpm: nat): (fires: bool)
    requires bpm > 0
    ensures fires ==> now > lastBeatTime
    ensures now - lastBeatTime <= RefractoryWindow(bpm) ==> !fires
  {
    rmsSquared > threshold * threshold && now - lastBeatTime > RefractoryWindow(bpm)
  }

  /** Testing the squared RMS is the source's test on the RMS itself. */
  lemma BeatFiresOnRms(rms: real, threshold: real, now: real, lastBeatTime: real, bpm: nat)
    requires bpm > 0 && rms >= 0.0 && threshold >= 0.0
    ensures BeatFires(rms * rms, threshold, now, lastBeatTime, bpm) <==>
      rms > threshold && now - lastBeatTime > RefractoryWindow(bpm)
  {
    RmsAboveThresholdBySquares(rms, threshold);
  }

  /** A detected beat: when it fired and the tempo in force at that moment. */
  datatype Beat = Beat(time: real, bpm: nat)

  /** The time the detector measures from before beat `k`: the previous beat, or 0 before the first. */
  function TimeBefore(beats: seq<Beat>, k: nat): real
    requires k <= |beats|
  {
    if k == 0 then 0.0 else beats[k - 1].time
  }

  /** Every detected beat came more than one refractory window after the one before it. */
  ghost predicate Spaced(beats: seq<Beat>)
  {
    forall k :: 0 <= k < |beats| ==>
      beats[k].bpm > 0 && beats[k].time - TimeBefore(beats, k) > RefractoryWindow(beats[k].bpm)
  }

  /** At a steady tempo, beats `i` and `j` of a spaced log are more than `j - i` windows apart. */
  lemma {:induction false} SpacedBeatsSpreadOut(beats: seq<Beat>, bpm: nat, i: nat, j: nat)
    requires Spaced(beats)
    requires bpm > 0
    requires forall k :: 0 <= k < |beats| ==> beats[k].bpm == bpm
    requires i < j < |beats|
    ensures beats[j].time - beats[i].time > (j - i) as real * RefractoryWindow(bpm)
    decreases j - i
  {
    assert beats[j].time - beats[j - 1].time > RefractoryWindow(bpm);
    if i < j - 1 {
      SpacedBeatsSpreadOut(beats, bpm, i, j - 1);
    }
  }

  // ---------------------------------------------------------------------
  // The manager

  class AudioManager {
    var isStarted: bool
    var isPlaying: bool
    var currentTrack: nat
    var bpm: nat
    /** The backup beat timer: `None` for a cleared interval, otherwise its period in ms. */
    var beatTimer: Option<real>
    var effectsEnabled: bool
    var lastBeatTime: real
    var beatDetectionEnabled: bool
    /** The level the master volume is set or ramping to, in dB. */
    var volumeDb: real
    /** Crossfade continuations scheduled and not yet run, oldest first (each holds its target track). */
    var pendingFades: seq<int>
    const tracks: seq<Track> := DefaultTracks
    const beatThreshold: real := BeatThreshold
    /** Every beat the detector has fired, in order. */
    ghost var beats: seq<Beat>

    /** Track state and the beat log agree with each other. */
    ghost predicate Consistent()
      reads this
    {
      && currentTrack < |tracks|
      && bpm == tracks[currentTrack].bpm
      && bpm > 0
      && Spaced(beats)
      && lastBeatTime == TimeBefore(beats, |beats|)
    }

    /** The backup beat timer runs exactly while playing. */
    ghost predicate Valid()
      reads this
    {
      Consistent() && (beatTimer.Some? <==> isPlaying)
    }

    constructor ()
      ensures Valid()
      ensures !isStarted && !isPlaying && effectsEnabled && beatDetectionEnabled
      ensures currentTrack == 0 && bpm == 128 && beatTimer == None
      ensures lastBeatTime == 0.0 && volumeDb == FullDb && pendingFades == [] && beats == []
    {
      isStarted := false;
      isPlaying := false;
      currentTrack := 0;
      bpm := 128;
      beatTimer := None;
      effectsEnabled := true;
      lastBeatTime := 0.0;
      beatDetectionEnabled := true;
      volumeDb := FullDb;
      pendingFades := [];
      beats := [];
    }

    /** Starts the audio context once; `contextStarts` is whether the host allows it. */
    method Start(contextStarts: bool) returns (result: Option<bool>)
      requires Consistent()
      modifies this`isStarted, this`currentTrack, this`bpm
      ensures Consistent()
      ensures old(isStarted) ==> result == None && unchanged(this)
      ensures !old(isStarted) && !contextStarts ==> result == Some(false) && unchanged(this)
      ensures !old(isStarted) && contextStarts ==>
        result == Some(true) && isStarted && currentTrack == 0 && bpm == tracks[0].bpm
    {
      if isStarted {
        return None;
      }
      if !contextStarts {
        return Some(false);
      }
      isStarted := true;
      var _ := LoadTrack(0);
      return Some(true);
    }

    /** Makes `trackIndex` current and adopts its tempo; an out-of-range index is ignored. */
    method LoadTrack(trackIndex: int) returns (loaded: bool)
      requires Consistent()
      modifies this`currentTrack, this`bpm
      ensures Consistent()
      ensures loaded <==> 0 <= trackIndex < |tracks|
      ensures loaded ==> currentTrack == trackIndex && bpm == tracks[trackIndex].bpm
      ensures !loaded ==> currentTrack == old(currentTrack) && bpm == old(bpm)
    {
      if trackIndex < 0 || trackIndex >= |tracks| {
        return false;
      }
      var track := tracks[trackIndex];
      currentTrack := trackIndex;
      bpm := track.bpm;
      return true;
    }

    /** Starts playback (starting the context first if needed); a no-op while already playing. */
    method StartPerformance(contextStarts: bool) returns (result: Option<bool>)
      requires Valid()
      modifies this`isStarted, this`currentTrack, this`bpm, this`isPlaying, this`beatTimer
      ensures Valid()
      ensures isPlaying
      ensures result == (if old(isPlaying) then None else Some(true))
      ensures isStarted == (old(isStarted) || contextStarts)
      ensures !old(isStarted) && contextStarts ==> currentTrack == 0 && bpm == tracks[0].bpm
      ensures old(isStarted) || !contextStarts ==> currentTrack == old(currentTrack) && bpm == old(bpm)
      ensures old(isPlaying) ==> beatTimer == old(beatTimer)
      ensures !old(isPlaying) ==> beatTimer == Some(BeatPeriodMs(bpm))
    {
      if !isStarted {
        var _ := Start(contextStarts);
      }
      if isPlaying {
        return None;
      }
      isPlaying := true;
      StartBeatTimer();
      return Some(true);
    }

    /** Stops playback and clears the backup beat timer; a no-op when not playing. */
    method StopPerformance()
      requires Valid()
      modifies this`isPlaying, this`beatTimer
      ensures Valid()
      ensures !isPlaying && beatTimer == None
      ensures !old(isPlaying) ==> unchanged(this)
    {
      if !isPlaying {
        return;
      }
      isPlaying := false;
      if beatTimer.Some? {
        beatTimer := None;
      }
    }

    /** Moves to the next track, wrapping from the last to the first. */
    method NextTrack() returns (target: nat)
      requires Valid()
      modifies this`currentTrack, this`bpm, this`volumeDb, this`pendingFades
      ensures Valid()
      ensures target == NextIndex(old(currentTrack), |tracks|) && target < |tracks|
      ensures !isPlaying ==> currentTrack == target && bpm == tracks[target].bpm
      ensures !isPlaying ==> volumeDb == old(volumeDb) && pendingFades == old(pendingFades)
      ensures isPlaying ==> currentTrack == old(currentTrack) && bpm == old(bpm)
      ensures isPlaying ==> volumeDb == SilenceDb && pendingFades == old(pendingFades) + [target]
    {
      target := NextIndex(currentTrack, |tracks|);
      CrossfadeToTrack(target);
    }

    /** Moves to the previous track, wrapping from the first to the last. */
    method PreviousTrack() returns (target: nat)
      requires Valid()
      modifies this`currentTrack, this`bpm, this`volumeDb, this`pendingFades
      ensures Valid()
      ensures target == PreviousIndex(old(currentTrack), |tracks|) && target < |tracks|
      ensures NextIndex(target, |tracks|) == old(currentTrack)
      ensures !isPlaying ==> currentTrack == target && bpm == tracks[target].bpm
      ensures !isPlaying ==> volumeDb == old(volumeDb) && pendingFades == old(pendingFades)
      ensures isPlaying ==> currentTrack == old(currentTrack) && bpm == old(bpm)
      ensures isPlaying ==> volumeDb == SilenceDb && pendingFades == old(pendingFades) + [target]
    {
      target := PreviousIndex(currentTrack, |tracks|);
      CrossfadeToTrack(target);
    }

    /**
     * The synchronous part of a crossfade: when stopped, load the track at
     * once; when playing, start the fade-out and schedule the continuation.
     */
    method CrossfadeToTrack(trackIndex: int)
      requires Valid()
      modifies this`currentTrack, this`bpm, this`volumeDb, this`pendingFades
      ensures Valid()
      ensures !isPlaying && 0 <= trackIndex < |tracks| ==>
        currentTrack == trackIndex && bpm == tracks[trackIndex].bpm
      ensures !isPlaying && !(0 <= trackIndex < |tracks|) ==>
        currentTrack == old(currentTrack) && bpm == old(bpm)
      ensures !isPlaying ==> volumeDb == old(volumeDb) && pendingFades == old(pendingFades)
      ensures isPlaying ==> currentTrack == old(currentTrack) && bpm == old(bpm)
      ensures isPlaying ==> volumeDb == SilenceDb && pendingFades == old(pendingFades) + [trackIndex]
    {
      if !isPlaying {
        var _ := LoadTrack(trackIndex);
        return;
      }
      volumeDb := SilenceDb;
      pendingFades := pendingFades + [trackIndex];
    }

    /**
     * The delayed continuation of the oldest scheduled crossfade: stop, load
     * its track, restart at silence and ramp back to full level.
     */
    method CompleteCrossfade(contextStarts: bool)
      requires Valid()
      requires pendingFades != []
      modifies this`isStarted, this`currentTrack, this`bpm, this`isPlaying, this`beatTimer
      modifies this`volumeDb, this`pendingFades
      ensures Valid()
      ensures pendingFades == old(pendingFades)[1..]
      ensures isPlaying && volumeDb == FullDb
      ensures beatTimer == Some(BeatPeriodMs(bpm))
      ensures isStarted == (old(isStarted) || contextStarts)
      ensures !old(isStarted) && contextStarts ==> currentTrack == 0
      ensures (old(isStarted) || !contextStarts) && 0 <= old(pendingFades)[0] < |tracks| ==>
        currentTrack == old(pendingFades)[0]
      ensures (old(isStarted) || !contextStarts) && !(0 <= old(pendingFades)[0] < |tracks|) ==>
        currentTrack == old(currentTrack)
    {
      var trackIndex := pendingFades[0];
      pendingFades := pendingFades[1..];
      RestartWith(trackIndex, contextStarts);
      volumeDb := FullDb;
    }

    /** Stops playback, loads `trackIndex` and starts playing again at silence. */
    method RestartWith(trackIndex: int, contextStarts: bool)
      requires Valid()
      modifies this`isStarted, this`currentTrack, this`bpm, this`isPlaying, this`beatTimer
      modifies this`volumeDb
      ensures Valid()
      ensures isPlaying && volumeDb == SilenceDb
      ensures beatTimer == Some(BeatPeriodMs(bpm))
      ensures isStarted == (old(isStarted) || contextStarts)
      ensures !old(isStarted) && contextStarts ==> currentTrack == 0
      ensures (old(isStarted) || !contextStarts) && 0 <= trackIndex < |tracks| ==>
        currentTrack == trackIndex
      ensures (old(isStarted) || !contextStarts) && !(0 <= trackIndex < |tracks|) ==>
        currentTrack == old(currentTrack)
    {
      StopPerformance();
      var _ := LoadTrack(trackIndex);
      volumeDb := SilenceDb;
      var _ := StartPerformance(contextStarts);
    }

    /** Starts the backup beat timer at the current tempo unless one is already running. */
    method StartBeatTimer()
      requires Consistent()
      modifies this`beatTimer
      ensures Consistent()
      ensures old(beatTimer).Some? ==> beatTimer == old(beatTimer)
      ensures old(beatTimer).None? ==> beatTimer == Some(BeatPeriodMs(bpm))
    {
      if beatTimer.Some? {
        return;
      }
      beatTimer := Some(BeatPeriodMs(bpm));
    }

    /** Flips whether beats drive the genre effects. */
    method ToggleEffects()
      modifies this`effectsEnabled
      ensures effectsEnabled == !old(effectsEnabled)
    {
      effectsEnabled := !effectsEnabled;
    }

    /** Sets the master level for a 0..1 volume. */
    method SetVolume(volume: real)
      modifies this`volumeDb
      ensures volumeDb == VolumeToDb(volume)
    {
      volumeDb := VolumeToDb(volume);
    }

    /** The square of the window's RMS (the loop of `calculateRMS` before its square root). */
    method CalculateRms(waveform: seq<real>) returns (rmsSquared: real)
      requires |waveform| > 0
      ensures rmsSquared == MeanSquare(waveform)
      ensures rmsSquared >= 0.0
    {
      var sum := 0.0;
      var i := 0;
      while i < |waveform|
        invariant 0 <= i <= |waveform|
        invariant sum == Sum(Squares(waveform[..i]))
      {
        ghost var grown := Squares(waveform[..i + 1]);
        assert grown[..i] == Squares(waveform[..i]) by {
          forall k | 0 <= k < i ensures grown[k] == Squares(waveform[..i])[k] {
            assert waveform[..i + 1][k] == waveform[..i][k];
          }
        }
        sum := sum + waveform[i] * waveform[i];
        i := i + 1;
      }
      assert waveform[..|waveform|] == waveform;
      rmsSquared := sum / |waveform| as real;
      MeanSquareNonNegative(waveform);
    }

    /**
     * One tick of the beat detector at time `now` on the analyser's current
     * window.  An empty window has no RMS (the source divides 0 by 0) and
     * never fires.
     */
    method DetectBeats(now: real, waveform: seq<real>) returns (fired: bool)
      requires Valid()
      modifies this`lastBeatTime, this`beats
      ensures Valid()
      ensures fired <==>
        beatDetectionEnabled && isPlaying && |waveform| > 0
        && BeatFires(MeanSquare(waveform), beatThreshold, now, old(lastBeatTime), bpm)
      ensures fired ==> lastBeatTime == now && beats == old(beats) + [Beat(now, bpm)]
      ensures !fired ==> lastBeatTime == old(lastBeatTime) && beats == old(beats)
    {
      fired := false;
      if !beatDetectionEnabled || !isPlaying {
        return;
      }
      if |waveform| == 0 {
        return;
      }
      var rmsSquared := CalculateRms(waveform);
      var timeSinceLastBeat := now - lastBeatTime;
      var expectedBeatInterval := 60.0 / bpm as real;
      if rmsSquared > beatThreshold * beatThreshold && timeSinceLastBeat > expectedBeatInterval * 0.8 {
        fired := true;
        lastBeatTime := now;
        beats := beats + [Beat(now, bpm)];
        assert forall k :: 0 <= k < |old(beats)| ==> beats[k] == old(beats)[k];
      }
    }

    /** Stops playback before the engine objects are released. */
    method Destroy()
      requires Valid()
      modifies this`isPlaying, this`beatTimer
      ensures Valid()
      ensures !isPlaying && beatTimer == None
    {
      StopPerformance();
    }
  }
}
