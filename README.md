# BeatSpace core in Dafny

BeatSpace is a browser WebXR demo. It places a virtual DJ in a mixed-reality
room, plays a fixed three-track playlist, and pulses effects on detected beats.
This project models the three parts of it that hold stateable logic and proves
properties of them:

- **Audio manager** (`audio_manager.dfy`, module `Audio`, class `AudioManager`).
  It covers the playlist (House Vibes 128 BPM, Techno Drive 140, Ambient Space 90)
  and the next/previous index arithmetic with wrap-around. It also covers the
  bounds-checked `loadTrack`, which copies the track's BPM into `bpm`, and the
  `isStarted`/`isPlaying` guards. The backup beat timer is a field: `None` when
  cleared, otherwise its period in ms. A crossfade has two parts. Its synchronous
  part either loads the track at once or starts the fade-out and schedules a
  continuation. The continuation is `CompleteCrossfade`, run by the caller in
  scheduling order. The module also covers the 0..1 → −60..−6 dB volume mapping,
  the effects flag, and the RMS beat detector.
  - One detector tick is `DetectBeats(now, waveform)`. It fires when the window's
    RMS exceeds 0.8 and more than 0.8 × 60/bpm seconds have passed since the last
    beat. When it fires, it sets `lastBeatTime := now`.
  - Dafny has no square root, so the RMS is carried as its square (`MeanSquare`).
    The lemma `RmsAboveThresholdBySquares` shows that comparing squares decides
    the same as comparing the RMS.
  - A ghost log of fired beats is part of the class invariant. Each beat in it
    came more than one refractory window after the previous one, using the BPM in
    force when it fired.
- **Room tracker** (`room_tracking.dfy`, module `RoomTracking`, classes
  `RoomTracker` and `MovementEstimator`). It covers:
  - the shoelace polygon area, which does not change when the vertex list is
    rotated or reversed;
  - the axis-aligned bounding box of a floor polygon;
  - the choice of the largest near-horizontal plane, the earliest one on ties;
  - the DJ position, clamped 0.5 m inside the walls;
  - the manual-room defaults (±3 m, floor at 0) and the tracking flag;
  - the bounding box grown from head-position samples.
- **DJ character** (`dj_character.dfy`, module `DJ`, class `DJCharacter`). It
  covers the spawned and performing flags and their guards, spawn versus
  reposition, and the house → techno → ambient style cycle, in which an unknown
  style restarts at house because `indexOf` gives −1. It also covers the
  `onBeat` guard, the per-style animation durations, and the per-turntable
  spin duration and direction.

`common.dfy` holds `Option`, `Vec3`, `Abs`, `Min` and `Max`. `real_sums.dfy`
holds the finite sums that the source's accumulating loops compute, with lemmas
for concatenation, reversal, negation and constant terms.

Numbers are Dafny `real`s throughout. Timers and the audio clock are not part of
the model. Instead, each timer callback is a method call with explicit arguments:
a detector tick takes `now` and the analyser window, a movement sample takes the
head position, and a crossfade continuation is `CompleteCrossfade`.

Two behaviours of the code are reproduced as written:

- The head-movement estimate computes its centre's z as `(minZ + minZ) / 2`.
  So `center.z` is the running `minZ`, and the estimate is a well-formed box only
  when every sample has the same z (`MovementEstimateShape`).
- The RMS of a constant window `a` is `|a|`, not `a`, for negative `a`
  (`RmsOfConstantWindow`).

## Model

| member | source | states |
|---|---|---|
| `Audio.NextIndex` | js/audio-manager.js:199-203 | The target is always a valid index. It is `current + 1`, except that the last index wraps to 0. |
| `Audio.PreviousIndex` | js/audio-manager.js:206-208 | From index 0 the target is the last index. From a valid index the target is valid and is the index that `NextIndex` maps back onto the current one. |
| `Audio.PreviousUndoesNext` | js/audio-manager.js:199-208 | Going to the next track and then back returns to the same track. |
| `Audio.VolumeToDb` | js/audio-manager.js:294-297 | Volume 0 gives −60 dB, volume 1 gives −6 dB, and every volume in [0,1] gives a level in [−60, −6]. |
| `Audio.VolumeToDbMonotonic` | js/audio-manager.js:294-297 | A higher volume never gives a lower dB level. |
| `Audio.MeanSquareNonNegative` | js/audio-manager.js:121-127 | The mean of the squared samples is never negative, so the RMS is defined. |
| `Audio.MeanSquareOfConstantWindow` | js/audio-manager.js:121-127 | A constant window `a` has mean square `a²`. |
| `Audio.RmsOfConstantWindow` | js/audio-manager.js:121-127 | A constant window `a` has RMS `Abs(a)`. |
| `Audio.RmsOfSilentWindow` | js/audio-manager.js:121-127 | An all-zero window has RMS 0. |
| `Audio.RmsAboveThresholdBySquares` | js/audio-manager.js:102-109 | For a non-negative RMS and threshold, `rms > threshold` holds exactly when `rms² > threshold²`. |
| `Audio.BeatFires` | js/audio-manager.js:104-109 | A beat fires only when `now` is later than the last beat, and never within the refractory window after it. |
| `Audio.BeatFiresOnRms` | js/audio-manager.js:102-109 | For a non-negative RMS and threshold, the gate on the squared RMS fires exactly when `rms > threshold` and more than the refractory window has passed, as the source tests it. |
| `Audio.RefractoryWindow` | js/audio-manager.js:104-109 | The refractory window, 0.8 × 60/bpm seconds, is positive. |
| `Audio.BeatPeriodMs` | js/audio-manager.js:234-242 | The backup timer's period is positive, and the refractory window is 80% of it. |
| `Audio.SpacedBeatsSpreadOut` | js/audio-manager.js:104-112 | At a steady tempo, detected beats `i < j` are more than `j − i` refractory windows apart. |
| `Audio.AudioManager.constructor` | js/audio-manager.js:3-44 | Initial state: not started or playing, track 0 at 128 BPM, no timer, effects and detection on, last beat at 0, level −6 dB. The invariant holds. |
| `Audio.AudioManager.Start` | js/audio-manager.js:56-75 | Once started, nothing changes. If the audio context fails, the result is false and nothing changes. Otherwise `isStarted` is set and track 0 is loaded with its BPM. |
| `Audio.AudioManager.LoadTrack` | js/audio-manager.js:129-151 | An out-of-range index changes nothing. A valid index becomes `currentTrack` and its BPM becomes `bpm`, so the current track always stays valid. |
| `Audio.AudioManager.StartPerformance` | js/audio-manager.js:153-179 | Starts the context if needed, even while playing. The playback part is a no-op while playing. Otherwise it ends playing, with the backup timer at the current tempo. |
| `Audio.AudioManager.StopPerformance` | js/audio-manager.js:181-197 | A no-op when not playing. Otherwise it ends with `isPlaying` false and the timer cleared. |
| `Audio.AudioManager.NextTrack` | js/audio-manager.js:199-204 | Targets `NextIndex(currentTrack)`. When stopped, that track loads at once. When playing, the level goes to −60 dB and the target is queued. |
| `Audio.AudioManager.PreviousTrack` | js/audio-manager.js:206-209 | Targets `PreviousIndex(currentTrack)`, whose next index is the old track, with the same stopped and playing cases as `NextTrack`. |
| `Audio.AudioManager.CrossfadeToTrack` | js/audio-manager.js:211-232 | When stopped, the track loads at once (as `LoadTrack`). When playing, the current track stays, the level goes to −60 dB and the continuation is queued. Nothing cancels an earlier fade. |
| `Audio.AudioManager.CompleteCrossfade` | js/audio-manager.js:220-229 | Runs the oldest queued continuation. It stops, loads the target (track 0 if this is the first start), and ends playing at −6 dB with the backup timer at the new tempo. |
| `Audio.AudioManager.RestartWith` | js/audio-manager.js:220-226 | Stops, loads the target when it is a valid index (track 0 instead if the context starts for the first time), and ends playing at −60 dB with the backup timer at the new tempo. The invariant holds. |
| `Audio.AudioManager.StartBeatTimer` | js/audio-manager.js:234-242 | A running timer is kept. Otherwise a timer starts with period 60/bpm × 1000 ms. |
| `Audio.AudioManager.ToggleEffects` | js/audio-manager.js:281-292 | `effectsEnabled` is negated, so toggling twice restores it. |
| `Audio.AudioManager.SetVolume` | js/audio-manager.js:294-298 | The master level becomes `VolumeToDb(volume)`. |
| `Audio.AudioManager.CalculateRms` | js/audio-manager.js:121-127 | The loop's sum over a non-empty window, divided by its length, is the mean of the squared samples: the RMS squared. |
| `Audio.AudioManager.DetectBeats` | js/audio-manager.js:96-113 | Fires exactly when detection is on, audio is playing, the window is non-empty, RMS² > 0.8², and more than the refractory window has passed since the last beat. On firing, `lastBeatTime := now` and the beat is logged; otherwise nothing changes. The class invariant (consecutive beats spaced) is kept. |
| `Audio.AudioManager.Destroy` | js/audio-manager.js:415-429 | Ends with playback stopped and the timer cleared. |
| `RoomTracking.PolygonArea` | js/room-tracking.js:159-170 | The area is never negative, and it is 0 for fewer than three vertices. |
| `RoomTracking.AreaRotationInvariant` | js/room-tracking.js:162-169 | Starting the vertex list at the next vertex leaves the area unchanged. |
| `RoomTracking.AreaReversalInvariant` | js/room-tracking.js:162-169 | Reversing the vertex order leaves the area unchanged. |
| `RoomTracking.ManualRoomIsWellFormed` | js/room-tracking.js:243-249 | The manual room is a consistent box: width and depth 6, centred on the origin. |
| `RoomTracking.MovementEstimate` | js/room-tracking.js:273-283 | The estimate lies strictly outside every running extreme. Its width and depth are its own box's sizes and its centre x is its box's midpoint. Its centre z is `minZ`, as the source's `(minZ + minZ) / 2` gives. |
| `RoomTracking.MovementEstimateShape` | js/room-tracking.js:273-283 | The estimate keeps 1 m outside each running extreme, and its width, depth and centre x agree with its box. Its centre z is `minZ`, so it is a consistent box only when `minZ == maxZ`. |
| `RoomTracking.Clamp` | js/room-tracking.js:321-324 | The result is at least `lo`, and at most `hi` when `lo <= hi`. A value already in range is kept. One below goes to `lo` when `lo <= hi`. One above goes to `hi` when `lo <= hi` and to `lo` otherwise, because the outer maximum wins. |
| `RoomTracking.IsHorizontal` | js/room-tracking.js:142-143 | A plane is horizontal exactly when its normal's y component is above 0.8 or below −0.8. Straight up or down is horizontal, and a normal with y in [−0.8, 0.8], such as a wall's, is not. |
| `RoomTracking.MovementEstimateEnclosesSamples` | js/room-tracking.js:260-283 | The written estimate contains the origin and keeps every sample at least 1 m inside each wall. |
| `RoomTracking.RoomTracker.constructor` | js/room-tracking.js:3-10 | Not tracking, no room, floor at 0, no planes. |
| `RoomTracking.RoomTracker.StartTracking` | js/room-tracking.js:52-74 | A no-op while tracking. Otherwise it ends tracking. Without a session it sets up the manual room and keeps any session taken over before; with one it records the session and leaves the room to plane detection. |
| `RoomTracking.RoomTracker.SetupManualRoom` | js/room-tracking.js:234-253 | The floor is at 0 and the room is ±3 m with width and depth 6 and centre (0,0). |
| `RoomTracking.RoomTracker.EstimateFloorHeight` | js/room-tracking.js:297-307 | With a camera, the floor is 1.7 m below it. Without one, nothing changes. |
| `RoomTracking.RoomTracker.StopTracking` | js/room-tracking.js:464-478 | `isTracking` is false. |
| `RoomTracking.RoomTracker.CalculatePolygonArea` | js/room-tracking.js:159-170 | The edge-by-edge loop computes `PolygonArea`. |
| `RoomTracking.RoomTracker.CalculateRoomBounds` | js/room-tracking.js:192-212 | For a non-empty polygon, min ≤ max on both axes and every vertex lies in the box. Each bound is some vertex's coordinate. Width and depth are max − min, and the centre is the midpoint. |
| `RoomTracking.RoomTracker.FindFloorPlane` | js/room-tracking.js:136-157 | The result is null exactly when no horizontal plane has positive area. Otherwise it is a horizontal plane with positive area, at least as large as every horizontal plane and strictly larger than those before it. |
| `RoomTracking.RoomTracker.ProcessFloorPlane` | js/room-tracking.js:172-190 | The floor height becomes the plane's height, and the room becomes its polygon's bounding box. |
| `RoomTracking.RoomTracker.UpdateDetectedPlanes` | js/room-tracking.js:122-134 | Records the planes. If some horizontal plane has positive area, the room becomes the largest floor's bounding box at its height; otherwise the room is unchanged. |
| `RoomTracking.RoomTracker.GetOptimalDJPosition` | js/room-tracking.js:309-331 | Without a room the result is (0, floorHeight, −2). With a room, y is the floor height and x, z are at least 0.5 m inside the low walls. When the room is at least 1 m across, they are also at least 0.5 m inside the high walls. |
| `RoomTracking.MovementEstimator.constructor` | js/room-tracking.js:255-261 | The running extremes start at 0 with no samples. |
| `RoomTracking.MovementEstimator.TrackMovement` | js/room-tracking.js:263-287 | Appends the sample and widens the running extremes. Once there are more than 10 samples it writes the estimate; otherwise the room is untouched. The invariant holds: the running box contains the origin and every sample, and each extreme is 0 or a sampled coordinate. |
| `DJ.IndexOf` | js/dj-character.js:243 | −1 exactly when the style is absent. Otherwise it is the first position holding it. |
| `DJ.NextStyle` | js/dj-character.js:241-246 | The next style is always one of the three and differs from the current one. An unknown style goes to house. |
| `DJ.StyleCycleOrder` | js/dj-character.js:242-246 | house → techno → ambient → house. |
| `DJ.StyleCycleReturns` | js/dj-character.js:241-246 | Three style changes restore any known style. |
| `DJ.AnimationFor` | js/dj-character.js:31-49 | In every style the head bob and the arm wave are positive and shorter than the body turn. The body turns 180° for ambient and 360° otherwise, and only techno bobs its head linearly. |
| `DJ.PerformanceFor` | js/dj-character.js:168-222 | The body, head and left-arm durations come from the style's table entry, and the right arm is the left arm plus 200 ms. |
| `DJ.TechnoIsFastest` | js/dj-character.js:33-49 | Techno has the shortest head bob (strictly shortest), body turn and arm wave of the three styles. |
| `DJ.TurntableSpin` | js/dj-character.js:224-239 | A turn takes at least 2000 ms, clockwise or anticlockwise. |
| `DJ.TurntablesAlternate` | js/dj-character.js:226-233 | Neighbouring turntables spin in opposite directions, every second one repeats the direction, and each is 200 ms slower than the one before. |
| `DJ.TechnoTurntablesFaster` | js/dj-character.js:228-229 | For every turntable, techno's turn is 1000 ms shorter than any other style's. |
| `DJ.DJCharacter.constructor` | js/dj-character.js:3-12 | Not spawned, not performing, style house, at (0, 0, −2). |
| `DJ.DJCharacter.Spawn` | js/dj-character.js:72-100 | An already spawned DJ is only repositioned: no spawn effect and no change to performing. A first spawn makes the DJ visible, spawned and performing, plays the spawn effect once, and moves it only if a position is given. |
| `DJ.DJCharacter.Reposition` | js/dj-character.js:102-116 | No position changes nothing. Otherwise the DJ moves to the position. |
| `DJ.DJCharacter.StartPerformance` | js/dj-character.js:139-154 | Ends performing; a no-op when already performing. |
| `DJ.DJCharacter.StopPerformance` | js/dj-character.js:156-166 | Ends not performing. |
| `DJ.DJCharacter.ChangePerformanceStyle` | js/dj-character.js:241-261 | The style becomes `NextStyle` of the old one, which always differs from it. The invariant that the style is one of the three is kept. |
| `DJ.DJCharacter.OnDJInteraction` | js/dj-character.js:404-418 | A click advances the style by one. |
| `DJ.DJCharacter.StartTurntableAnimations` | js/dj-character.js:224-239 | Turntable `i` gets duration `(techno ? 2000 : 3000) + 200·i` and spins `0 360 0` for even `i` and `0 -360 0` for odd `i`. |
| `DJ.DJCharacter.OnBeat` | js/dj-character.js:277-295 | A beat pulses the DJ only when it is spawned. |
| `DJ.DJCharacter.EnableRoomIntegration` | js/dj-character.js:392-402 | Room integration is on. |
| `DJ.DJCharacter.Destroy` | js/dj-character.js:443-453 | The DJ is hidden, not spawned and not performing. |

## Left out

- The audio-synthesis engine is not modelled: the player, the effect chain, the analyser, the clock and every volume ramp are foreign calls. `volumeDb` holds only the level a ramp heads for. The genre effects applied on a beat (`applyBeatEffects`) and the effect reset in `toggleEffects` are not modelled.
- `Audio.AudioManager.Start`: only the failure of starting the audio context is modelled, as the `contextStarts` argument. Loading a track into the player and starting the player are assumed not to throw.
- `Audio.AudioManager.LoadTrack`: the track's audio source and the track-info panel are not modelled.
- `Audio.AudioManager.DetectBeats`: the 50 ms polling interval is not modelled; each call is one tick. The beat's fan-out (the app's `onBeat`, the visualizer pulse, the genre effects) is reduced to the returned `fired` flag.
- The backup beat timer is modelled by its period only. Its own calls to `onBeatDetected` are not ticks of the detector and are not in the beat log, so the spacing invariant is about detected beats only.
- `Audio.AudioManager.CalculateRms`: it requires a non-empty window. For an empty window the source computes 0/0, a NaN that fails every comparison; `DetectBeats` models this case as "no beat". The square root itself is not modelled; the RMS is carried as its square.
- `Audio.AudioManager.CompleteCrossfade`: the one-second delay is not modelled. The caller runs queued continuations in order, because equal delays fire in the order they were scheduled.
- The audio visualizer, the track-info panel and the synthetic track generators are DOM or synthesis side effects and are not modelled.
- Floating-point behaviour is not modelled. All arithmetic is on exact reals.
- `RoomTracking.RoomTracker.CalculateRoomBounds` requires a non-empty polygon. Its only caller passes a floor with positive area, which has at least three vertices; an empty polygon would give infinite bounds in the source.
- Session and reference-space requests are not modelled, and neither are the plane-detection frame loop, hit-test anchors (`createAnchor`), the boundary, highlight and lighting entities, room-ready notifications or `getRoomInfo`. Detected planes reach the model as the argument of `UpdateDetectedPlanes`.
- `RoomTracking.RoomTracker.StartTracking`: the fallback to the manual room when an exception is caught is not modelled.
- `RoomTracking.MovementEstimator`: the 30-second sampling window and its 1 s interval are not modelled. A missing camera is modelled by not creating an estimator; `SetupManualRoom` does not create one itself.
- Scene-entity writes for the DJ are not modelled: spawn and beat animations, particles, glow, colours, party lights and hover effects. They are counted by the ghost fields `spawnEffects` and `beatPulses`.
- A DJ whose scene entity is missing is not modelled. The source logs an error at start-up and later throws on attribute writes; the model assumes the entity exists.
- `DJ.DJCharacter.ChangePerformanceStyle`: the 100 ms delayed restart of the animations and `stopAllAnimations` are not modelled.
- `DJ.PerformanceFor`: it requires one of the three styles. The source would fail to read the animation table for any other style, and the class invariant rules such a style out.
