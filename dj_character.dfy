/**
 * The DJ character: the spawned and performing flags, the performance-style
 * cycle, position updates, the beat guard and the animation timings chosen
 * for each style.  Attribute writes on scene entities are left out; the
 * timings they would carry are computed by the functions below.
 */
module DJ {
  import opened Common

  /** The performance styles in cycling order. */
  const Styles: seq<string> := ["house", "techno", "ambient"]

  /** Where the DJ stands before anything moves it. */
  const StartPosition: Vec3 := Vec3(0.0, 0.0, -2.0)

  /** Position of the first occurrence of `s` in `styles`, or -1 (`Array.prototype.indexOf`). */
  function IndexOf(styles: seq<string>, s: string): (k: int)
    ensures -1 <= k < |styles|
    ensures k == -1 <==> s !in styles
    ensures k >= 0 ==> styles[k] == s && s !in styles[..k]
    decreases |styles|
  {
    if styles == [] then -1
    else if styles[0] == s then 0
    else
      var rest := IndexOf(styles[1..], s);
      if rest == -1 then -1 else rest + 1
  }

  /** The style `changePerformanceStyle` switches to; an unknown style restarts at the first. */
  function NextStyle(style: string): (next: string)
    ensures next in Styles
    ensures style !in Styles ==> next == Styles[0]
    ensures next != style
  {
    Styles[(IndexOf(Styles, style) + 1) % |Styles|]
  }

  /** house goes to techno, techno to ambient, ambient back to house. */
  lemma StyleCycleOrder()
    ensures NextStyle("house") == "techno"
    ensures NextStyle("techno") == "ambient"
    ensures NextStyle("ambient") == "house"
  {
    assert IndexOf(Styles, "house") == 0;
    assert IndexOf(Styles, "techno") == 1 by {
      assert Styles[1] == "techno" && "techno" !in Styles[..1];
    }
    assert IndexOf(Styles, "ambient") == 2 by {
      assert Styles[2] == "ambient" && "ambient" !in Styles[..2];
    }
  }

  /** Three style changes bring every known style back. */
  lemma StyleCycleReturns(style: string)
    requires style in Styles
    ensures NextStyle(NextStyle(NextStyle(style))) == style
  {
    StyleCycleOrder();
  }

  // ---------------------------------------------------------------------
  // Animation timings

  /** The animation set of one style: head bob, body turn and left-arm wave. */
  datatype StyleAnimation = StyleAnimation(
    headBobMs: nat, headBobEasing: string,
    bodyMoveMs: nat, bodyRotation: string,
    armWaveMs: nat)

  /** The animation table for the three styles. */
  function AnimationFor(style: string): (a: StyleAnimation)
    requires style in Styles
    ensures 0 < a.headBobMs < a.bodyMoveMs && 0 < a.armWaveMs < a.bodyMoveMs
    ensures a.bodyRotation == (if style == "ambient" then "0 180 0" else "0 360 0")
    ensures style == "techno" <==> a.headBobEasing == "linear"
  {
    if style == "house" then StyleAnimation(1000, "easeInOutQuad", 2000, "0 360 0", 1500)
    else if style == "techno" then StyleAnimation(600, "linear", 1000, "0 360 0", 800)
    else StyleAnimation(2000, "easeInOutSine", 4000, "0 180 0", 3000)
  }

  /** The durations the performance animations run with. */
  datatype Performance = Performance(
    bodyMs: nat, bodyRotation: string,
    headBobMs: nat, headBobEasing: string,
    leftArmMs: nat, rightArmMs: nat)

  /** The performance animations started for `style`; the right arm lags the left by 200 ms. */
  function PerformanceFor(style: string): (perf: Performance)
    requires style in Styles
    ensures perf.rightArmMs == perf.leftArmMs + 200
    ensures perf.leftArmMs == AnimationFor(style).armWaveMs
    ensures perf.headBobMs == AnimationFor(style).headBobMs
    ensures perf.bodyMs == AnimationFor(style).bodyMoveMs
  {
    var a := AnimationFor(style);
    Performance(a.bodyMoveMs, a.bodyRotation, a.headBobMs, a.headBobEasing,
                a.armWaveMs, a.armWaveMs + 200)
  }

  /** Techno moves fastest: its head bob, body turn and arm waves are the shortest of the three styles. */
  lemma TechnoIsFastest(style: string)
    requires style in Styles
    ensures PerformanceFor("techno").headBobMs <= PerformanceFor(style).headBobMs
    ensures PerformanceFor("techno").bodyMs <= PerformanceFor(style).bodyMs
    ensures PerformanceFor("techno").rightArmMs <= PerformanceFor(style).rightArmMs
    ensures style != "techno" ==> PerformanceFor("techno").headBobMs < PerformanceFor(style).headBobMs
  {
  }

  /** One turntable's spin: the time for a turn and its direction. */
  datatype Spin = Spin(durationMs: nat, rotation: string)

  /** The spin of turntable `index` in `style`: 2 s per turn for techno, 3 s otherwise, 200 ms slower per index. */
  function TurntableSpin(style: string, index: nat): (s: Spin)
    ensures s.rotation == "0 360 0" || s.rotation == "0 -360 0"
    ensures s.durationMs >= 2000
  {
    var baseSpeed := if style == "techno" then 2000 else 3000;
    Spin(baseSpeed + index * 200, if index % 2 == 0 then "0 360 0" else "0 -360 0")
  }

  /**
   * Neighbouring turntables spin in opposite directions, the next one a
   * 200 ms longer turn; every second one repeats the direction.
   */
  lemma TurntablesAlternate(style: string, index: nat)
    ensures TurntableSpin(style, index).rotation != TurntableSpin(style, index + 1).rotation
    ensures TurntableSpin(style, index + 2).rotation == TurntableSpin(style, index).rotation
    ensures TurntableSpin(style, index + 1).durationMs == TurntableSpin(style, index).durationMs + 200
  {
  }

  /** Techno turntables turn a full second faster than those of any other style. */
  lemma TechnoTurntablesFaster(style: string, index: nat)
    requires style != "techno"
    ensures TurntableSpin("techno", index).durationMs + 1000 == TurntableSpin(style, index).durationMs
  {
  }

  // ---------------------------------------------------------------------
  // The character

  class DJCharacter {
    var isSpawned: bool
    var isPerforming: bool
    var performanceStyle: string
    var currentPosition: Vec3
    var roomIntegrationEnabled: bool
    /** The entity's `visible` attribute. */
    var visible: bool
    /** How many spawn animations and particle bursts have been played. */
    ghost var spawnEffects: nat
    /** How many beat pulses have been played. */
    ghost var beatPulses: nat

    /** The style is always one of the three, and a spawned DJ is visible. */
    ghost predicate Valid()
      reads this
    {
      performanceStyle in Styles && (isSpawned ==> visible)
    }

    constructor ()
      ensures Valid()
      ensures !isSpawned && !isPerforming && !visible && !roomIntegrationEnabled
      ensures performanceStyle == "house" && currentPosition == StartPosition
      ensures spawnEffects == 0 && beatPulses == 0
    {
      isSpawned := false;
      isPerforming := false;
      performanceStyle := "house";
      currentPosition := StartPosition;
      roomIntegrationEnabled := false;
      visible := false;
      spawnEffects := 0;
      beatPulses := 0;
    }

    /**
     * Shows the DJ and starts the performance; on a DJ already spawned it
     * only repositions and replays no spawn effect.
     */
    method Spawn(position: Option<Vec3>)
      requires Valid()
      modifies this`isSpawned, this`isPerforming, this`currentPosition, this`visible, this`spawnEffects
      ensures Valid()
      ensures isSpawned && visible
      ensures old(isSpawned) ==>
        isPerforming == old(isPerforming) && spawnEffects == old(spawnEffects)
      ensures !old(isSpawned) ==> isPerforming && spawnEffects == old(spawnEffects) + 1
      ensures position.Some? ==> currentPosition == position.value
      ensures position.None? ==> currentPosition == old(currentPosition)
    {
      if isSpawned {
        Reposition(position);
        return;
      }
      if position.Some? {
        currentPosition := position.value;
      }
      visible := true;
      StartPerformance();
      isSpawned := true;
      spawnEffects := spawnEffects + 1;
    }

    /** Moves the DJ to `position`; no position, no move. */
    method Reposition(position: Option<Vec3>)
      modifies this`currentPosition
      ensures position.Some? ==> currentPosition == position.value
      ensures position.None? ==> currentPosition == old(currentPosition)
    {
      if position.None? {
        return;
      }
      currentPosition := position.value;
    }

    /** Starts the performance animations unless they are already running. */
    method StartPerformance()
      modifies this`isPerforming
      ensures isPerforming
    {
      if isPerforming {
        return;
      }
      isPerforming := true;
    }

    /** Stops the performance. */
    method StopPerformance()
      modifies this`isPerforming
      ensures !isPerforming
    {
      isPerforming := false;
    }

    /** Switches to the next style in the cycle; performing and spawned flags are kept. */
    method ChangePerformanceStyle()
      requires Valid()
      modifies this`performanceStyle
      ensures Valid()
      ensures performanceStyle == NextStyle(old(performanceStyle))
      ensures performanceStyle != old(performanceStyle)
    {
      performanceStyle := NextStyle(performanceStyle);
    }

    /** The turntable spins `startTurntableAnimations` assigns, one per turntable in scene order. */
    method StartTurntableAnimations(turntableCount: nat) returns (spins: seq<Spin>)
      ensures |spins| == turntableCount
      ensures forall i :: 0 <= i < turntableCount ==>
        spins[i].durationMs == (if performanceStyle == "techno" then 2000 else 3000) + 200 * i
      ensures forall i :: 0 <= i < turntableCount ==>
        spins[i].rotation == (if i % 2 == 0 then "0 360 0" else "0 -360 0")
    {
      spins := [];
      var index := 0;
      while index < turntableCount
        invariant 0 <= index <= turntableCount
        invariant |spins| == index
        invariant forall i :: 0 <= i < index ==> spins[i] == TurntableSpin(performanceStyle, i)
      {
        spins := spins + [TurntableSpin(performanceStyle, index)];
        index := index + 1;
      }
    }

    /** Pulses the DJ on a beat, but only once it has been spawned. */
    method OnBeat()
      modifies this`beatPulses
      ensures beatPulses == old(beatPulses) + (if isSpawned then 1 else 0)
    {
      if !isSpawned {
        return;
      }
      beatPulses := beatPulses + 1;
    }

    /** A click on the DJ moves it to the next style. */
    method OnDJInteraction()
      requires Valid()
      modifies this`performanceStyle
      ensures Valid()
      ensures performanceStyle == NextStyle(old(performanceStyle))
    {
      ChangePerformanceStyle();
    }

    /** Lets the DJ use the detected room. */
    method EnableRoomIntegration()
      modifies this`roomIntegrationEnabled
      ensures roomIntegrationEnabled
    {
      roomIntegrationEnabled := true;
    }

    /** Hides the DJ and clears both flags. */
    method Destroy()
      requires Valid()
      modifies this`visible, this`isSpawned, this`isPerforming
      ensures Valid()
      ensures !visible && !isSpawned && !isPerforming
    {
      visible := false;
      isSpawned := false;
      isPerforming := false;
    }
  }
}
