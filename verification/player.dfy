/** The player: a variable-height jump driven by the held jump key, and a run
    animation whose frame advances on a timer scaled by the game speed.

    Two versions of the player exist. They share the jump physics and differ
    in the animation: the first toggles between two run images and shows its
    standing image while the key is held; the second cycles through three run
    images by index and shows a dedicated jumping image. */
module Players {

  const WalkAnimationTimer: real := 200.0
  const JumpSpeed: real := 0.6
  const Gravity: real := 0.4

  /** Which version of the run animation a player uses. */
  datatype Variant = TwoFrameToggle | ThreeFrameCycle

  datatype PlayerImage = StandingStill | Running(frame: nat) | Jumping

  /** How many run images the variant cycles through. */
  function RunFrames(v: Variant): nat {
    match v
    case TwoFrameToggle => 2
    case ThreeFrameCycle => 3
  }

  /** The image a freshly built player shows. */
  function InitialImage(v: Variant): PlayerImage {
    match v
    case TwoFrameToggle => StandingStill
    case ThreeFrameCycle => Running(0)
  }

  /** The image shown while the jump key is held. */
  function JumpPose(v: Variant): PlayerImage {
    match v
    case TwoFrameToggle => StandingStill
    case ThreeFrameCycle => Jumping
  }

  // ---------------------------------------------------------------------
  // Jump physics

  /** The fixed quantities the jump depends on. */
  datatype Geometry = Geometry(canvasHeight: real, height: real, minJumpHeight: real,
                               maxJumpHeight: real, scaleRatio: real, yStandingPos: real)

  /** The geometry the constructor builds: the rest position is 1.5 scaled
      pixels above the bottom edge of the canvas. */
  predicate WellPlaced(g: Geometry) {
    g.scaleRatio >= 0.0 && g.yStandingPos == g.canvasHeight - g.height - 1.5 * g.scaleRatio
  }

  /** The vertical state of the player. */
  datatype Motion = Motion(y: real, jumpPressed: bool, jumpInProgress: bool, falling: bool)

  /** After the key is read, the player takes the ascending branch. */
  predicate Rising(m: Motion) {
    (m.jumpInProgress || m.jumpPressed) && !m.falling
  }

  /** Ascent continues below the minimum jump height, or below the maximum
      while the key is held. */
  predicate MayRise(g: Geometry, y: real, pressed: bool) {
    y > g.canvasHeight - g.minJumpHeight || (y > g.canvasHeight - g.maxJumpHeight && pressed)
  }

  /** One frame of `jump`. */
  function JumpStep(g: Geometry, m: Motion, frameTimeDelta: real): Motion {
    var inProgress := m.jumpInProgress || m.jumpPressed;
    if inProgress && !m.falling then
      if MayRise(g, m.y, m.jumpPressed) then
        m.(y := m.y - JumpSpeed * g.scaleRatio * frameTimeDelta, jumpInProgress := inProgress)
      else
        m.(jumpInProgress := inProgress, falling := true)
    else if m.y < g.yStandingPos then
      var y1 := m.y + Gravity * g.scaleRatio * frameTimeDelta;
      m.(y := if y1 + g.height > g.canvasHeight then g.yStandingPos else y1, jumpInProgress := inProgress)
    else
      m.(jumpInProgress := false, falling := false)
  }

  /** Holding the key while not falling starts (or continues) a jump: the
      player rises by exactly one ascent step while under the threshold, and
      otherwise starts to fall without moving. */
  lemma AscentStep(g: Geometry, m: Motion, frameTimeDelta: real)
    requires Rising(m)
    ensures JumpStep(g, m, frameTimeDelta).jumpInProgress
    ensures JumpStep(g, m, frameTimeDelta).jumpPressed == m.jumpPressed
    ensures MayRise(g, m.y, m.jumpPressed) ==>
      JumpStep(g, m, frameTimeDelta).y == m.y - JumpSpeed * g.scaleRatio * frameTimeDelta &&
      !JumpStep(g, m, frameTimeDelta).falling
    ensures !MayRise(g, m.y, m.jumpPressed) ==>
      JumpStep(g, m, frameTimeDelta).y == m.y && JumpStep(g, m, frameTimeDelta).falling
  {
  }

  /** Below the minimum jump height the player keeps rising whether or not
      the key is still held. */
  lemma MinimumHeightIsMandatory(g: Geometry, m: Motion, frameTimeDelta: real)
    requires Rising(m)
    requires m.y > g.canvasHeight - g.minJumpHeight
    ensures JumpStep(g, m, frameTimeDelta).y == m.y - JumpSpeed * g.scaleRatio * frameTimeDelta
    ensures !JumpStep(g, m, frameTimeDelta).falling
  {
  }

  /** A descending step above the rest position moves down by one gravity
      step, and snaps to the rest position exactly when that step would put
      the feet below the bottom edge of the canvas; the feet never end below
      it. */
  lemma DescentStep(g: Geometry, m: Motion, frameTimeDelta: real)
    requires WellPlaced(g)
    requires !Rising(m) && m.y < g.yStandingPos
    ensures var y1 := m.y + Gravity * g.scaleRatio * frameTimeDelta;
            JumpStep(g, m, frameTimeDelta).y == (if y1 + g.height > g.canvasHeight then g.yStandingPos else y1)
    ensures JumpStep(g, m, frameTimeDelta).jumpInProgress == (m.jumpInProgress || m.jumpPressed)
    ensures JumpStep(g, m, frameTimeDelta).jumpPressed == m.jumpPressed
    ensures JumpStep(g, m, frameTimeDelta).y + g.height <= g.canvasHeight
    ensures JumpStep(g, m, frameTimeDelta).falling == m.falling
  {
  }

  /** At or below the rest position, a player that is not rising lands:
      both flags clear and `y` stays. */
  lemma LandingStep(g: Geometry, m: Motion, frameTimeDelta: real)
    requires !Rising(m) && m.y >= g.yStandingPos
    ensures JumpStep(g, m, frameTimeDelta) == m.(jumpInProgress := false, falling := false)
  {
  }

  /** A player standing at rest with the key up does not move. */
  lemma IdleStep(g: Geometry, m: Motion, frameTimeDelta: real)
    requires !m.jumpPressed && !m.jumpInProgress && !m.falling && m.y == g.yStandingPos
    ensures JumpStep(g, m, frameTimeDelta) == m
  {
  }

  /** What every reachable state satisfies: the feet are on the canvas, and
      the player only falls during a jump. */
  predicate Sane(g: Geometry, m: Motion) {
    m.y + g.height <= g.canvasHeight && (m.falling ==> m.jumpInProgress)
  }

  lemma JumpStepKeepsSane(g: Geometry, m: Motion, frameTimeDelta: real)
    requires WellPlaced(g) && frameTimeDelta >= 0.0
    requires Sane(g, m)
    ensures Sane(g, JumpStep(g, m, frameTimeDelta))
  {
    if Rising(m) && MayRise(g, m.y, m.jumpPressed) {
      assert g.scaleRatio * frameTimeDelta >= 0.0;
    }
  }

  /** One frame as the key handlers and `jump` see it: the key state of the
      frame, then the step. */
  datatype KeyFrame = KeyFrame(pressed: bool, frameTimeDelta: real)

  /** `jump` over a run of frames, with the key pressed or released between them. */
  function JumpRun(g: Geometry, m: Motion, frames: seq<KeyFrame>): Motion
    decreases |frames|
  {
    if frames == [] then m
    else JumpRun(g, JumpStep(g, m.(jumpPressed := frames[0].pressed), frames[0].frameTimeDelta), frames[1..])
  }

  /** Whatever the key does, the player's feet stay on the canvas and it only
      falls during a jump. */
  lemma {:induction false} JumpRunKeepsSane(g: Geometry, m: Motion, frames: seq<KeyFrame>)
    requires WellPlaced(g)
    requires forall i :: 0 <= i < |frames| ==> frames[i].frameTimeDelta >= 0.0
    requires Sane(g, m)
    ensures Sane(g, JumpRun(g, m, frames))
    decreases |frames|
  {
    if frames != [] {
      JumpStepKeepsSane(g, m.(jumpPressed := frames[0].pressed), frames[0].frameTimeDelta);
      JumpRunKeepsSane(g, JumpStep(g, m.(jumpPressed := frames[0].pressed), frames[0].frameTimeDelta), frames[1..]);
    }
  }

  /** A player at rest that never presses the key stays at rest. */
  lemma {:induction false} IdleRunStaysIdle(g: Geometry, m: Motion, frames: seq<KeyFrame>)
    requires !m.jumpPressed && !m.jumpInProgress && !m.falling && m.y == g.yStandingPos
    requires forall i :: 0 <= i < |frames| ==> !frames[i].pressed
    ensures JumpRun(g, m, frames) == m
    decreases |frames|
  {
    if frames != [] {
      IdleStep(g, m, frames[0].frameTimeDelta);
      IdleRunStaysIdle(g, m, frames[1..]);
    }
  }

  // ---------------------------------------------------------------------
  // Run animation

  datatype Animation = Animation(walkAnimationTimer: real, image: PlayerImage, currentRunImageIndex: nat)

  /** What happens when the animation timer has run out: the next run image
      and a full timer. */
  function Advance(v: Variant, a: Animation): Animation {
    match v
    case TwoFrameToggle =>
      a.(image := if a.image == Running(0) then Running(1) else Running(0),
         walkAnimationTimer := WalkAnimationTimer)
    case ThreeFrameCycle =>
      var k := (a.currentRunImageIndex + 1) % 3;
      a.(currentRunImageIndex := k, image := Running(k), walkAnimationTimer := WalkAnimationTimer)
  }

  /** One frame of `run`. */
  function RunStep(v: Variant, a: Animation, gameSpeed: real, frameTimeDelta: real): Animation {
    var a1 := if a.walkAnimationTimer <= 0.0 then Advance(v, a) else a;
    a1.(walkAnimationTimer := a1.walkAnimationTimer - gameSpeed * frameTimeDelta)
  }

  /** The timer is refilled exactly when it has run out, and never exceeds
      its full value when the elapsed game time is non-negative. */
  lemma RunStepTimer(v: Variant, a: Animation, gameSpeed: real, frameTimeDelta: real)
    requires a.walkAnimationTimer <= WalkAnimationTimer
    requires gameSpeed * frameTimeDelta >= 0.0
    ensures RunStep(v, a, gameSpeed, frameTimeDelta).walkAnimationTimer ==
      (if a.walkAnimationTimer <= 0.0 then WalkAnimationTimer else a.walkAnimationTimer) - gameSpeed * frameTimeDelta
    ensures RunStep(v, a, gameSpeed, frameTimeDelta).walkAnimationTimer <= WalkAnimationTimer
  {
  }

  /** The image changes only when the timer has run out. */
  lemma RunStepKeepsImageWhileTimerRuns(v: Variant, a: Animation, gameSpeed: real, frameTimeDelta: real)
    requires a.walkAnimationTimer > 0.0
    ensures RunStep(v, a, gameSpeed, frameTimeDelta).image == a.image
    ensures RunStep(v, a, gameSpeed, frameTimeDelta).currentRunImageIndex == a.currentRunImageIndex
  {
  }

  /** The two-image toggle: any image other than the first run image becomes
      the first, and the first becomes the second. */
  lemma ToggleAlternates(a: Animation)
    ensures Advance(TwoFrameToggle, a).image in {Running(0), Running(1)}
    ensures a.image == Running(0) <==> Advance(TwoFrameToggle, a).image == Running(1)
    ensures a.image in {Running(0), Running(1)} ==>
            Advance(TwoFrameToggle, Advance(TwoFrameToggle, a)).image == a.image
  {
  }

  /** The three-image cycle: the index stays in range, advances by one modulo
      three, the image shown is the run image at that index, and three
      advances come back to the same index. */
  lemma CycleAdvances(a: Animation)
    requires a.currentRunImageIndex < RunFrames(ThreeFrameCycle)
    ensures Advance(ThreeFrameCycle, a).currentRunImageIndex < RunFrames(ThreeFrameCycle)
    ensures Advance(ThreeFrameCycle, a).currentRunImageIndex == (a.currentRunImageIndex + 1) % 3
    ensures Advance(ThreeFrameCycle, a).image == Running(Advance(ThreeFrameCycle, a).currentRunImageIndex)
    ensures Advance(ThreeFrameCycle, Advance(ThreeFrameCycle, Advance(ThreeFrameCycle, a))).currentRunImageIndex
            == a.currentRunImageIndex
  {
  }

  // ---------------------------------------------------------------------
  // The player object

  class Player {
    const variant: Variant
    const canvasHeight: real
    const width: real
    const height: real
    const minJumpHeight: real
    const maxJumpHeight: real
    const scaleRatio: real
    const x: real
    const yStandingPos: real

    var y: real
    var jumpPressed: bool
    var jumpInProgress: bool
    var falling: bool
    var walkAnimationTimer: real
    var image: PlayerImage
    var currentRunImageIndex: nat

    function Geom(): Geometry {
      Geometry(canvasHeight, height, minJumpHeight, maxJumpHeight, scaleRatio, yStandingPos)
    }

    function MotionState(): Motion
      reads this
    {
      Motion(y, jumpPressed, jumpInProgress, falling)
    }

    function AnimationState(): Animation
      reads this
    {
      Animation(walkAnimationTimer, image, currentRunImageIndex)
    }

    constructor (variant: Variant, canvasHeight: real, width: real, height: real,
                 minJumpHeight: real, maxJumpHeight: real, scaleRatio: real)
      ensures this.variant == variant && this.canvasHeight == canvasHeight
      ensures this.width == width && this.height == height
      ensures this.minJumpHeight == minJumpHeight && this.maxJumpHeight == maxJumpHeight
      ensures this.scaleRatio == scaleRatio
      ensures x == 10.0 * scaleRatio
      ensures y == yStandingPos == canvasHeight - height - 1.5 * scaleRatio
      ensures !jumpPressed && !jumpInProgress && !falling
      ensures walkAnimationTimer == WalkAnimationTimer
      ensures image == InitialImage(variant) && currentRunImageIndex == 0
      ensures scaleRatio >= 0.0 ==> WellPlaced(Geom()) && Sane(Geom(), MotionState())
    {
      this.variant := variant;
      this.canvasHeight := canvasHeight;
      this.width := width;
      this.height := height;
      this.minJumpHeight := minJumpHeight;
      this.maxJumpHeight := maxJumpHeight;
      this.scaleRatio := scaleRatio;
      x := 10.0 * scaleRatio;
      y := canvasHeight - height - 1.5 * scaleRatio;
      yStandingPos := canvasHeight - height - 1.5 * scaleRatio;
      jumpPressed, jumpInProgress, falling := false, false, false;
      walkAnimationTimer := WalkAnimationTimer;
      image := InitialImage(variant);
      currentRunImageIndex := 0;
    }

    /** A key press: the space key sets the jump flag, any other key does nothing. */
    method KeyDown(code: string)
      modifies this`jumpPressed
      ensures jumpPressed == (code == "Space" || old(jumpPressed))
    {
      if code == "Space" {
        jumpPressed := true;
      }
    }

    /** A key release: the space key clears the jump flag, any other key does nothing. */
    method KeyUp(code: string)
      modifies this`jumpPressed
      ensures jumpPressed == (code != "Space" && old(jumpPressed))
    {
      if code == "Space" {
        jumpPressed := false;
      }
    }

    /** One frame: animation first, the jump image while the key is held,
        then the jump physics. */
    method Update(gameSpeed: real, frameTimeDelta: real)
      modifies this
      ensures MotionState() == JumpStep(Geom(), old(MotionState()), frameTimeDelta)
      ensures AnimationState() ==
        (var a := RunStep(variant, old(AnimationState()), gameSpeed, frameTimeDelta);
         if old(jumpPressed) then a.(image := JumpPose(variant)) else a)
      ensures old(jumpPressed) ==> image == JumpPose(variant)
      ensures old(currentRunImageIndex) < RunFrames(variant) ==> currentRunImageIndex < RunFrames(variant)
      ensures old(walkAnimationTimer) <= WalkAnimationTimer && gameSpeed * frameTimeDelta >= 0.0 ==>
              walkAnimationTimer <= WalkAnimationTimer
    {
      Run(gameSpeed, frameTimeDelta);
      if jumpPressed {
        image := JumpPose(variant);
      }
      Jump(frameTimeDelta);
    }

    method Jump(frameTimeDelta: real)
      modifies this`y, this`jumpInProgress, this`falling
      ensures MotionState() == JumpStep(Geom(), old(MotionState()), frameTimeDelta)
    {
      if jumpPressed {
        jumpInProgress := true;
      }
      if jumpInProgress && !falling {
        if (y > canvasHeight - minJumpHeight) || ((y > canvasHeight - maxJumpHeight) && jumpPressed) {
          y := y - JumpSpeed * scaleRatio * frameTimeDelta;
        } else {
          falling := true;
        }
      } else {
        if y < yStandingPos {
          y := y + Gravity * scaleRatio * frameTimeDelta;
          if y + height > canvasHeight {
            y := yStandingPos;
          }
        } else {
          falling := false;
          jumpInProgress := false;
        }
      }
    }

    method Run(gameSpeed: real, frameTimeDelta: real)
      modifies this`walkAnimationTimer, this`image, this`currentRunImageIndex
      ensures AnimationState() == RunStep(variant, old(AnimationState()), gameSpeed, frameTimeDelta)
    {
      if walkAnimationTimer <= 0.0 {
        match variant {
          case TwoFrameToggle =>
            if image == Running(0) {
              image := Running(1);
            } else {
              image := Running(0);
            }
          case ThreeFrameCycle =>
            currentRunImageIndex := (currentRunImageIndex + 1) % RunFrames(variant);
            image := Running(currentRunImageIndex);
        }
        walkAnimationTimer := WalkAnimationTimer;
      }
      walkAnimationTimer := walkAnimationTimer - gameSpeed * frameTimeDelta;
    }
  }
}
